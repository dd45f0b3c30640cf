/** The visibility pass that runs whenever the UI layer list changes: a table
    of every layer type's flag, then each UI layer's strategy applied to its
    data source. */
module UseLayerVisibility {
  import opened Wrappers
  import opened Types
  import opened MapEngine
  import opened MapLayerUtils
  import opened MapVisibilityStrategies
  import DataSourceUtils

  // ---------------------------------------------------------------------------
  // The layer-state table
  // ---------------------------------------------------------------------------

  /** `layerStates` after the layers up to here were `set` in order, on top
      of `init`. */
  function StatesAfter(init: map<LayerType, bool>, layers: seq<MapLayer>): map<LayerType, bool> {
    if layers == [] then init
    else
      var n := |layers| - 1;
      StatesAfter(init, layers[..n])[layers[n].layerType := layers[n].visible]
  }

  /** Position `i` holds the last UI layer of type `t`. */
  predicate LastOfType(layers: seq<MapLayer>, t: LayerType, i: int) {
    0 <= i < |layers| && layers[i].layerType == t
    && forall j :: i < j < |layers| ==> layers[j].layerType != t
  }

  /** The table has an entry for exactly the types present. */
  lemma {:induction false} StatesAfterDomain(layers: seq<MapLayer>, t: LayerType)
    ensures t in StatesAfter(map[], layers) <==> exists i :: 0 <= i < |layers| && layers[i].layerType == t
  {
    if layers != [] {
      var n := |layers| - 1;
      StatesAfterDomain(layers[..n], t);
      if layers[n].layerType != t && exists i :: 0 <= i < |layers| && layers[i].layerType == t {
        var i :| 0 <= i < |layers| && layers[i].layerType == t;
        assert layers[..n][i].layerType == t;
      }
    }
  }

  /** A type's entry holds the flag of the last layer of that type. */
  lemma {:induction false} StatesAfterLast(layers: seq<MapLayer>, t: LayerType, i: int)
    requires LastOfType(layers, t, i)
    ensures t in StatesAfter(map[], layers) && StatesAfter(map[], layers)[t] == layers[i].visible
  {
    var n := |layers| - 1;
    if i < n {
      assert LastOfType(layers[..n], t, i);
      StatesAfterLast(layers[..n], t, i);
    }
  }

  /** The table of the whole list, built from nothing. */
  function LayerStates(layers: seq<MapLayer>): map<LayerType, bool> {
    StatesAfter(map[], layers)
  }

  /** The `forEach` that fills the table. */
  method BuildLayerStates(layers: seq<MapLayer>) returns (states: map<LayerType, bool>)
    ensures states == LayerStates(layers)
  {
    states := map[];
    var i := 0;
    while i < |layers|
      invariant 0 <= i <= |layers|
      invariant states == StatesAfter(map[], layers[..i])
    {
      assert layers[..i + 1][..i] == layers[..i];
      states := states[layers[i].layerType := layers[i].visible];
      i := i + 1;
    }
    assert layers[..i] == layers;
  }

  /** Setting two different types commutes, so swapping two adjacent layers
      of different types leaves the table as it was. */
  lemma {:induction false} StatesSwap(init: map<LayerType, bool>, p: seq<MapLayer>, a: MapLayer, b: MapLayer, q: seq<MapLayer>)
    requires a.layerType != b.layerType
    ensures StatesAfter(init, p + [a, b] + q) == StatesAfter(init, p + [b, a] + q)
  {
    if q == [] {
      assert (p + [a, b] + q)[..|p| + 1] == p + [a];
      assert (p + [b, a] + q)[..|p| + 1] == p + [b];
      assert (p + [a] )[..|p|] == p && (p + [b])[..|p|] == p;
    } else {
      var n := |q| - 1;
      assert (p + [a, b] + q)[..|p| + 2 + n] == p + [a, b] + q[..n];
      assert (p + [b, a] + q)[..|p| + 2 + n] == p + [b, a] + q[..n];
      StatesSwap(init, p, a, b, q[..n]);
    }
  }

  // ---------------------------------------------------------------------------
  // The data source of a UI layer
  // ---------------------------------------------------------------------------

  /** Gain and loss draw the shared change source; every other layer draws
      the first configured source of its type, if there is one. */
  function DataSourceIdFor(layer: MapLayer, configs: seq<DataSourceConfig>): (id: Option<string>)
    ensures layer.layerType in {Gain, Loss} ==> id == Some(ChangeSourceId)
    ensures layer.layerType !in {Gain, Loss} ==>
      (id.None? <==> forall i :: 0 <= i < |configs| ==> configs[i].layerType != layer.layerType)
    ensures layer.layerType !in {Gain, Loss} && id.Some? ==>
      exists i :: DataSourceUtils.FirstOfType(configs, layer.layerType, i) && configs[i].id == id.value
  {
    if layer.layerType == Gain || layer.layerType == Loss then Some(ChangeSourceId)
    else
      match DataSourceUtils.GetDataSourceByLayerType(configs, layer.layerType)
      case Some(config) => Some(config.id)
      case None => None
  }

  // ---------------------------------------------------------------------------
  // The pass
  // ---------------------------------------------------------------------------

  /** One UI layer's turn: its strategy on its data source, or nothing when
      it has none. */
  function Step(s: Store, layer: MapLayer, states: map<LayerType, bool>, configs: seq<DataSourceConfig>): Store {
    match DataSourceIdFor(layer, configs)
    case None => s
    case Some(id) => ApplySpec(GetVisibilityStrategy(layer.layerType), s, id, layer.visible, states)
  }

  /** The turns of the listed layers, in order. */
  function Pass(s: Store, layers: seq<MapLayer>, states: map<LayerType, bool>, configs: seq<DataSourceConfig>): Store {
    if layers == [] then s
    else
      var n := |layers| - 1;
      Step(Pass(s, layers[..n], states, configs), layers[n], states, configs)
  }

  lemma {:induction false} PassAppend(s: Store, a: seq<MapLayer>, b: seq<MapLayer>, states: map<LayerType, bool>, configs: seq<DataSourceConfig>)
    ensures Pass(s, a + b, states, configs) == Pass(Pass(s, a, states, configs), b, states, configs)
  {
    if b == [] {
      assert a + b == a;
    } else {
      var n := |b| - 1;
      assert (a + b)[..|a| + n] == a + b[..n];
      PassAppend(s, a, b[..n], states, configs);
    }
  }

  /** A gain and a loss layer both apply the shared strategy with the same
      table, whatever their own flags, so their order does not matter. */
  lemma GainLossStepsCommute(s: Store, a: MapLayer, b: MapLayer, states: map<LayerType, bool>, configs: seq<DataSourceConfig>)
    requires a.layerType == Gain && b.layerType == Loss
    ensures Step(Step(s, a, states, configs), b, states, configs) == Step(Step(s, b, states, configs), a, states, configs)
  {
  }

  /** The effect body, given the two readiness flags. */
  function EffectSpec(s: Store, initialized: bool, dataLoaded: bool, layers: seq<MapLayer>, configs: seq<DataSourceConfig>): Store {
    if !initialized || !dataLoaded then s
    else Pass(s, layers, LayerStates(layers), configs)
  }

  /** The final map does not depend on whether the gain or the loss layer
      comes first in the list. */
  lemma GainLossOrderIrrelevant(s: Store, p: seq<MapLayer>, a: MapLayer, b: MapLayer, q: seq<MapLayer>,
                                  initialized: bool, dataLoaded: bool, configs: seq<DataSourceConfig>)
    requires a.layerType == Gain && b.layerType == Loss
    ensures EffectSpec(s, initialized, dataLoaded, p + [a, b] + q, configs)
         == EffectSpec(s, initialized, dataLoaded, p + [b, a] + q, configs)
  {
    if initialized && dataLoaded {
      StatesSwap(map[], p, a, b, q);
      var states := LayerStates(p + [a, b] + q);
      PassAppend(s, p + [a, b], q, states, configs);
      PassAppend(s, p + [b, a], q, states, configs);
      PassAppend(s, p, [a, b], states, configs);
      PassAppend(s, p, [b, a], states, configs);
      var mid := Pass(s, p, states, configs);
      assert [a, b][..1] == [a] && [b, a][..1] == [b];
      assert [a][..0] == [] && [b][..0] == [];
      GainLossStepsCommute(mid, a, b, states, configs);
    }
  }

  /** A UI layer without a data source leaves the map as it is. */
  lemma NoSourceNoChange(s: Store, layer: MapLayer, states: map<LayerType, bool>, configs: seq<DataSourceConfig>)
    requires layer.layerType !in {Gain, Loss}
    requires forall i :: 0 <= i < |configs| ==> configs[i].layerType != layer.layerType
    ensures Step(s, layer, states, configs) == s
  {
  }

  /** `useLayerVisibility`'s effect body. */
  method Effect(m: MapStore, initialized: bool, dataLoaded: bool, layers: seq<MapLayer>, configs: seq<DataSourceConfig>)
    modifies m
    ensures m.State() == EffectSpec(old(m.State()), initialized, dataLoaded, layers, configs)
    ensures m.listeners == old(m.listeners)
  {
    if !initialized || !dataLoaded {
      return;
    }
    var states := BuildLayerStates(layers);
    ghost var s0 := m.State();
    var i := 0;
    while i < |layers|
      invariant 0 <= i <= |layers|
      invariant m.State() == Pass(s0, layers[..i], states, configs)
      invariant m.listeners == old(m.listeners)
    {
      assert layers[..i + 1][..i] == layers[..i];
      var layer := layers[i];
      var target := DataSourceIdFor(layer, configs);
      if target.Some? {
        ApplyStrategy(m, GetVisibilityStrategy(layer.layerType), target.value, layer.visible, states);
      }
      i := i + 1;
    }
    assert layers[..i] == layers;
  }
}
