/** Which model and voice the GPU stays on (server/app/scheduler/service.py,
    `_sync_residency`, `_choose_group_key`, `_note_batch_affinity`), and what that means
    over whole runs of batches. */
module Residency {
  import opened Wrappers
  import opened DispatchOrder

  /** `model_residency_batches` and `voice_residency_batches`. */
  datatype Windows = Windows(model: nat, voice: nat)

  /** The four residency fields of the scheduler. */
  datatype Resident = Resident(model: Option<string>, voice: Option<string>, onModel: nat, onVoice: nat)

  const Nobody := Resident(None, None, 0, 0)

  /** `_sync_residency`, outside the loading window. */
  function Sync(r: Resident, loaded: Option<string>): Resident {
    if loaded != r.model then Resident(loaded, None, 0, 0) else r
  }

  /** `_note_batch_affinity`. */
  function Note(r: Resident, model: string, voice: string): Resident {
    var s := if r.model == Some(model) then r.(onModel := r.onModel + 1)
             else Resident(Some(model), None, 1, 0);
    if s.voice == Some(voice) then s.(onVoice := s.onVoice + 1)
    else s.(voice := Some(voice), onVoice := 1)
  }

  // ---- the choice of a group ----

  /** The models of the groups on offer, best first. */
  function ModelOrder(keys: seq<Group>): (r: seq<string>)
    ensures forall m :: m in r <==> Offers(keys, m)
    ensures forall i, j :: 0 <= i < j < |r| ==> r[i] != r[j]
  {
    if keys == [] then [] else
      var r := ModelOrder(keys[..|keys| - 1]);
      var m := keys[|keys| - 1].model;
      assert forall n :: Offers(keys, n) <==> n == m || Offers(keys[..|keys| - 1], n) by { OffersLast(keys); }
      if m in r then r else r + [m]
  }

  ghost predicate Offers(keys: seq<Group>, model: string) {
    exists k :: 0 <= k < |keys| && keys[k].model == model
  }

  lemma OffersLast(keys: seq<Group>)
    requires keys != []
    ensures forall n :: Offers(keys, n) <==> n == keys[|keys| - 1].model || Offers(keys[..|keys| - 1], n)
  {
    forall n
      ensures Offers(keys, n) <==> n == keys[|keys| - 1].model || Offers(keys[..|keys| - 1], n)
    {
      if Offers(keys, n) {
        var k :| 0 <= k < |keys| && keys[k].model == n;
        if k < |keys| - 1 { assert keys[..|keys| - 1][k].model == n; }
      }
      if Offers(keys[..|keys| - 1], n) {
        var k :| 0 <= k < |keys| - 1 && keys[..|keys| - 1][k].model == n;
        assert keys[k].model == n;
      }
    }
  }

  function Others(order: seq<string>, model: string): (r: seq<string>)
    ensures forall m :: m in r <==> m in order && m != model
  {
    if order == [] then [] else
      Others(order[..|order| - 1], model) +
      (if order[|order| - 1] != model then [order[|order| - 1]] else [])
  }

  function Among(order: seq<string>, models: set<string>): (r: seq<string>)
    ensures forall m :: m in r <==> m in order && m in models
  {
    if order == [] then [] else
      Among(order[..|order| - 1], models) +
      (if order[|order| - 1] in models then [order[|order| - 1]] else [])
  }

  function OrElse<T>(a: seq<T>, b: seq<T>): seq<T> { if a != [] then a else b }

  function Eligible(r: Resident, order: seq<string>, urgent: set<string>, w: Windows): (e: seq<string>)
    requires order != []
    ensures e != [] && forall m :: m in e ==> m in order
  {
    if r.model.None? || r.model.value !in order then order
    else if r.model.value in urgent then [r.model.value]
    else if r.onModel >= w.model then
      var others := Others(order, r.model.value);
      OrElse(Among(others, urgent), OrElse(others, [r.model.value]))
    else [r.model.value]
  }

  function OfModel(keys: seq<Group>, model: string): (r: seq<Group>)
    ensures forall g :: g in r <==> g in keys && g.model == model
  {
    if keys == [] then [] else
      OfModel(keys[..|keys| - 1], model) +
      (if keys[|keys| - 1].model == model then [keys[|keys| - 1]] else [])
  }

  function WithVoice(keys: seq<Group>, voice: Option<string>): (r: seq<Group>)
    ensures forall g :: g in r <==> g in keys && Some(g.voice) == voice
  {
    if keys == [] then [] else
      WithVoice(keys[..|keys| - 1], voice) +
      (if Some(keys[|keys| - 1].voice) == voice then [keys[|keys| - 1]] else [])
  }

  function WithoutVoice(keys: seq<Group>, voice: Option<string>): (r: seq<Group>)
    ensures forall g :: g in r <==> g in keys && Some(g.voice) != voice
  {
    if keys == [] then [] else
      WithoutVoice(keys[..|keys| - 1], voice) +
      (if Some(keys[|keys| - 1].voice) != voice then [keys[|keys| - 1]] else [])
  }

  /** The groups of the chosen model among which the voice decides. */
  function VoiceChoice(r: Resident, keys: seq<Group>, w: Windows): (c: seq<Group>)
    requires keys != []
    ensures c != [] && forall g :: g in c ==> g in keys
  {
    assert keys[0] in keys;
    var same := WithVoice(keys, r.voice);
    if r.voice.Some? && r.onVoice < w.voice && same != [] then same
    else OrElse(WithoutVoice(keys, r.voice), keys)
  }

  function ChosenModel(r: Resident, keys: seq<Group>, urgent: set<string>, w: Windows): (m: string)
    requires keys != []
    ensures Offers(keys, m)
  {
    assert Offers(keys, keys[0].model);
    var e := Eligible(r, ModelOrder(keys), urgent, w);
    assert e[0] in e;
    e[0]
  }

  /** `_choose_group_key`, once residency is in step with the loaded model. */
  function ChooseKey(r: Resident, keys: seq<Group>, urgent: set<string>, w: Windows): (g: Group)
    requires keys != []
    ensures g in keys && g.model == ChosenModel(r, keys, urgent, w)
  {
    var m := ChosenModel(r, keys, urgent, w);
    assert OfModel(keys, m) != [] by {
      var k :| 0 <= k < |keys| && keys[k].model == m;
      assert keys[k] in OfModel(keys, m);
    }
    var c := VoiceChoice(r, OfModel(keys, m), w);
    assert c[0] in c;
    c[0]
  }

  // ---- the tracker, as the scheduler keeps it ----

  /** Chunks of band 0 belong to a listener about to run dry. */
  predicate HasUrgent(bands: seq<nat>) { exists k :: 0 <= k < |bands| && bands[k] == 0 }

  function UrgentModels(keys: seq<Group>, bands: map<Group, seq<nat>>): (r: set<string>)
    requires forall g :: g in keys ==> g in bands
  {
    set k | 0 <= k < |keys| && HasUrgent(bands[keys[k]]) :: keys[k].model
  }

  /** The first loop of `_choose_group_key`: the groups by model, and who is urgent. */
  method SortKeys(keys: seq<Group>, bands: map<Group, seq<nat>>)
    returns (modelOrder: seq<string>, byModel: map<string, seq<Group>>, urgent: set<string>)
    requires forall g :: g in keys ==> g in bands
    ensures SortsByModel(keys, modelOrder, byModel) && urgent == UrgentModels(keys, bands)
  {
    modelOrder, byModel, urgent := [], map[], {};
    hide SortsByModel, UrgentModels, HasUrgent;
    assert keys[..0] == [];
    NothingSorted(bands);
    for k := 0 to |keys|
      invariant SortsByModel(keys[..k], modelOrder, byModel)
      invariant forall g :: g in keys[..k] ==> g in bands
      invariant urgent == UrgentModels(keys[..k], bands)
    {
      var g := keys[k];
      assert keys[..k + 1] == keys[..k] + [g];
      assert g in keys;
      SortOneKey(keys[..k], modelOrder, byModel, g);
      if g.model !in byModel {
        modelOrder := modelOrder + [g.model];
        byModel := byModel[g.model := []];
      }
      byModel := byModel[g.model := byModel[g.model] + [g]];
      UrgentStep(keys, bands, k);
      if HasUrgent(bands[g]) { urgent := urgent + {g.model}; }
    }
    assert keys[..|keys|] == keys;
  }

  class ResidencyTracker {
    var residentModel: Option<string>
    var residentVoice: Option<string>
    var batchesOnModel: nat
    var batchesOnVoice: nat

    ghost function State(): Resident
      reads this
    {
      Resident(residentModel, residentVoice, batchesOnModel, batchesOnVoice)
    }

    constructor ()
      ensures State() == Nobody
    {
      residentModel, residentVoice, batchesOnModel, batchesOnVoice := None, None, 0, 0;
    }

    /** `_sync_residency`. `inTransit`: the model is loading or busy. */
    method SyncResidency(loaded: Option<string>, inTransit: bool)
      modifies this
      ensures State() == if inTransit then old(State()) else Sync(old(State()), loaded)
    {
      if inTransit { return; }
      if loaded != residentModel {
        residentModel := loaded;
        batchesOnModel := 0;
        residentVoice := None;
        batchesOnVoice := 0;
      }
    }

    method NoteBatchAffinity(model: string, voice: string)
      modifies this
      ensures State() == Note(old(State()), model, voice)
    {
      if Some(model) != residentModel {
        residentModel := Some(model);
        batchesOnModel := 1;
        residentVoice := None;
        batchesOnVoice := 0;
      } else {
        batchesOnModel := batchesOnModel + 1;
      }
      if Some(voice) != residentVoice {
        residentVoice := Some(voice);
        batchesOnVoice := 1;
      } else {
        batchesOnVoice := batchesOnVoice + 1;
      }
    }

    method ChooseGroupKey(keys: seq<Group>, bands: map<Group, seq<nat>>, w: Windows,
                          loaded: Option<string>, inTransit: bool) returns (key: Group)
      requires keys != [] && forall g :: g in keys ==> g in bands
      modifies this
      ensures State() == if inTransit then old(State()) else Sync(old(State()), loaded)
      ensures key == ChooseKey(State(), keys, UrgentModels(keys, bands), w)
    {
      SyncResidency(loaded, inTransit);
      var modelOrder, byModel, urgent := SortKeys(keys, bands);
      hide SortsByModel, UrgentModels, ChooseKey, Sync;
      key := PickKey(keys, byModel, modelOrder, urgent, w);
    }

    /** The decision itself. */
    method PickKey(ghost keys: seq<Group>, byModel: map<string, seq<Group>>, modelOrder: seq<string>,
                   urgent: set<string>, w: Windows) returns (key: Group)
      requires keys != [] && SortsByModel(keys, modelOrder, byModel)
      ensures key == ChooseKey(State(), keys, urgent, w)
    {
      hide ModelOrder, OfModel, Others, Among, WithVoice, WithoutVoice;
      assert Offers(keys, keys[0].model);
      var eligible: seq<string>;
      if residentModel.None? || residentModel.value !in modelOrder {
        eligible := modelOrder;
      } else if residentModel.value in urgent {
        eligible := [residentModel.value];
      } else {
        var others := Others(modelOrder, residentModel.value);
        if batchesOnModel >= w.model {
          var otherUrgent := Among(others, urgent);
          eligible := OrElse(otherUrgent, OrElse(others, [residentModel.value]));
        } else {
          eligible := [residentModel.value];
        }
      }
      assert eligible == Eligible(State(), modelOrder, urgent, w);
      assert eligible[0] in eligible;
      var modelKeys := byModel[eligible[0]];
      assert eligible[0] == ChosenModel(State(), keys, urgent, w);
      if residentVoice.Some? && batchesOnVoice < w.voice {
        var sameVoice := WithVoice(modelKeys, residentVoice);
        if sameVoice != [] { return sameVoice[0]; }
      }
      return OrElse(WithoutVoice(modelKeys, residentVoice), modelKeys)[0];
    }
  }

  /** `by_model` and the order of its keys. */
  ghost predicate SortsByModel(keys: seq<Group>, order: seq<string>, byModel: map<string, seq<Group>>) {
    && order == ModelOrder(keys) && (forall m :: m in byModel <==> m in order)
    && (forall m :: m in byModel ==> byModel[m] == OfModel(keys, m))
  }

  lemma NothingSorted(bands: map<Group, seq<nat>>)
    ensures SortsByModel([], [], map[]) && UrgentModels([], bands) == {}
  {
  }

  lemma {:induction false} SortOneKey(keys: seq<Group>, order: seq<string>, byModel: map<string, seq<Group>>, g: Group)
    requires SortsByModel(keys, order, byModel)
    ensures g.model in byModel ==>
      SortsByModel(keys + [g], order, byModel[g.model := byModel[g.model] + [g]])
    ensures g.model !in byModel ==>
      SortsByModel(keys + [g], order + [g.model], byModel[g.model := []][g.model := [] + [g]])
  {
    hide ModelOrder, OfModel;
    ModelOrderStep(keys, g);
    if g.model in byModel {
      forall m { OfModelStep(keys, g, m); }
    } else {
      NothingOfModel(keys, g.model);
      forall m { OfModelStep(keys, g, m); }
    }
  }

  lemma ModelOrderStep(keys: seq<Group>, g: Group)
    ensures ModelOrder(keys + [g]) ==
      if g.model in ModelOrder(keys) then ModelOrder(keys) else ModelOrder(keys) + [g.model]
  {
    assert (keys + [g])[..|keys|] == keys;
  }

  lemma OfModelStep(keys: seq<Group>, g: Group, m: string)
    ensures OfModel(keys + [g], m) == OfModel(keys, m) + (if g.model == m then [g] else [])
  {
    assert (keys + [g])[..|keys|] == keys;
  }

  lemma {:induction false} NothingOfModel(keys: seq<Group>, model: string)
    ensures OfModel(keys, model) != [] ==> model in ModelOrder(keys)
  {
    if OfModel(keys, model) != [] {
      var g := OfModel(keys, model)[0];
      assert g in OfModel(keys, model);
      var k :| 0 <= k < |keys| && keys[k] == g;
      assert Offers(keys, model);
    }
  }

  lemma UrgentStep(keys: seq<Group>, bands: map<Group, seq<nat>>, k: nat)
    requires k < |keys| && forall g :: g in keys ==> g in bands
    ensures UrgentModels(keys[..k + 1], bands) ==
      UrgentModels(keys[..k], bands) + (if HasUrgent(bands[keys[k]]) then {keys[k].model} else {})
  {
    var a, b := keys[..k], keys[..k + 1];
    assert forall i :: 0 <= i < k ==> a[i] == b[i] == keys[i];
    assert b[k] == keys[k];
    forall m
      ensures m in UrgentModels(b, bands) <==>
        m in UrgentModels(a, bands) || (HasUrgent(bands[keys[k]]) && m == keys[k].model)
    {
      if m in UrgentModels(b, bands) {
        var i :| 0 <= i < |b| && HasUrgent(bands[b[i]]) && b[i].model == m;
        if i < k { assert a[i] == b[i]; }
      }
      if m in UrgentModels(a, bands) {
        var i :| 0 <= i < |a| && HasUrgent(bands[a[i]]) && a[i].model == m;
        assert b[i] == a[i];
      }
    }
  }
}
