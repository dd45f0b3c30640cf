/** How switching a UI layer on or off reaches the map. Most layers simply
    show or hide their data source's layers. The gain and loss toggles share
    the `mangrove-change` data source and are coordinated: its layers show
    the change types whose toggles are on, and are hidden when neither is. */
module MapVisibilityStrategies {
  import opened Types
  import opened MapEngine
  import opened MapLayerUtils

  datatype VisibilityStrategy = DefaultVisibility | SharedChangeVisibility

  /** `getVisibilityStrategy`: the shared strategy for gain and loss, the
      default for every other type. */
  function GetVisibilityStrategy(t: LayerType): (s: VisibilityStrategy)
    ensures s == SharedChangeVisibility <==> t == Gain || t == Loss
  {
    if t == Gain || t == Loss then SharedChangeVisibility else DefaultVisibility
  }

  /** The data source that the gain and loss toggles share. */
  const ChangeSourceId: string := "mangrove-change"

  /** `allLayerStates?.get(t) ?? false`. */
  function StateOf(states: map<LayerType, bool>, t: LayerType): bool {
    if t in states then states[t] else false
  }

  /** `defaultVisibilityStrategy`. */
  function DefaultSpec(s: Store, layerId: string, visible: bool): Store {
    VisibilitySpec(s, layerId, if visible then Visible else Hidden)
  }

  /** `mangroveChangeVisibilityStrategy`: the case split on the two toggles. */
  function SharedSpec(s: Store, states: map<LayerType, bool>): Store {
    var gain, loss := StateOf(states, Gain), StateOf(states, Loss);
    if gain && loss then FilterSpec(VisibilitySpec(s, ChangeSourceId, Visible), ChangeSourceId, {"Gain", "Loss"})
    else if gain then FilterSpec(VisibilitySpec(s, ChangeSourceId, Visible), ChangeSourceId, {"Gain"})
    else if loss then FilterSpec(VisibilitySpec(s, ChangeSourceId, Visible), ChangeSourceId, {"Loss"})
    else VisibilitySpec(s, ChangeSourceId, Hidden)
  }

  /** A strategy applied to a layer id, the layer's own flag and the table of
      every type's flag. */
  function ApplySpec(strategy: VisibilityStrategy, s: Store, layerId: string, visible: bool, states: map<LayerType, bool>): Store {
    match strategy
    case DefaultVisibility => DefaultSpec(s, layerId, visible)
    case SharedChangeVisibility => SharedSpec(s, states)
  }

  method ApplyStrategy(m: MapStore, strategy: VisibilityStrategy, layerId: string, visible: bool, states: map<LayerType, bool>)
    modifies m
    ensures m.State() == ApplySpec(strategy, old(m.State()), layerId, visible, states)
    ensures m.listeners == old(m.listeners)
  {
    match strategy
    case DefaultVisibility =>
      UpdateLayerVisibility(m, layerId, if visible then Visible else Hidden);
    case SharedChangeVisibility =>
      var gain, loss := StateOf(states, Gain), StateOf(states, Loss);
      if gain && loss {
        UpdateLayerVisibility(m, ChangeSourceId, Visible);
        ApplyLayerFilter(m, ChangeSourceId, {"Gain", "Loss"});
      } else if gain {
        UpdateLayerVisibility(m, ChangeSourceId, Visible);
        ApplyLayerFilter(m, ChangeSourceId, {"Gain"});
      } else if loss {
        UpdateLayerVisibility(m, ChangeSourceId, Visible);
        ApplyLayerFilter(m, ChangeSourceId, {"Loss"});
      } else {
        UpdateLayerVisibility(m, ChangeSourceId, Hidden);
      }
  }

  /** The layers of a data source. */
  predicate OwnLayer(k: string, id: string) {
    k == FillId(id) || k == LineId(id)
  }

  /** The default strategy shows or hides exactly the layers of the data
      source, and nothing else changes. */
  lemma DefaultResult(s: Store, layerId: string, visible: bool)
    ensures var r := DefaultSpec(s, layerId, visible);
      && r.sources == s.sources && r.layers.Keys == s.layers.Keys
      && (forall k :: k in s.layers && OwnLayer(k, layerId) ==>
            (r.layers[k].visibility == Visible <==> visible) && r.layers[k].filter == s.layers[k].filter)
      && (forall k :: k in s.layers && !OwnLayer(k, layerId) ==> r.layers[k] == s.layers[k])
  {
    VisibilityResult(s, layerId, if visible then Visible else Hidden);
  }

  /** The truth table of the shared strategy, for each existing layer of
      the `mangrove-change` data source: shown iff a toggle is on; filtered to
      the change types whose toggles are on; filter kept when hidden. Nothing
      else changes. */
  lemma SharedTruthTable(s: Store, states: map<LayerType, bool>)
    ensures var r := SharedSpec(s, states);
      var gain, loss := StateOf(states, Gain), StateOf(states, Loss);
      && r.sources == s.sources && r.layers.Keys == s.layers.Keys
      && (forall k :: k in s.layers && !OwnLayer(k, ChangeSourceId) ==> r.layers[k] == s.layers[k])
      && (forall k :: k in s.layers && OwnLayer(k, ChangeSourceId) ==>
            && (r.layers[k].visibility == Visible <==> gain || loss)
            && (gain && loss ==> r.layers[k].filter == ChangeTypeIn({"Gain", "Loss"}))
            && (gain && !loss ==> r.layers[k].filter == ChangeTypeIn({"Gain"}))
            && (!gain && loss ==> r.layers[k].filter == ChangeTypeIn({"Loss"}))
            && (!gain && !loss ==> r.layers[k].filter == s.layers[k].filter)
            && r.layers[k].source == s.layers[k].source && r.layers[k].paint == s.layers[k].paint)
  {
    var gain, loss := StateOf(states, Gain), StateOf(states, Loss);
    if gain || loss {
      VisibilityResult(s, ChangeSourceId, Visible);
      var values := if gain && loss then {"Gain", "Loss"} else if gain then {"Gain"} else {"Loss"};
      FilterResult(VisibilitySpec(s, ChangeSourceId, Visible), ChangeSourceId, values);
    } else {
      VisibilityResult(s, ChangeSourceId, Hidden);
    }
  }

  /** Switching one toggle never hides the other's features: while a toggle
      is on, the shared layers are shown and let its change type through, and
      features of any other change type are shown only when no toggle is on
      to filter them. */
  lemma ToggleNeverHidesOther(s: Store, states: map<LayerType, bool>, k: string, changeType: string)
    requires k in s.layers && OwnLayer(k, ChangeSourceId)
    ensures var r := SharedSpec(s, states);
      && (StateOf(states, Gain) ==> r.layers[k].visibility == Visible && Admits(r.layers[k].filter, "Gain"))
      && (StateOf(states, Loss) ==> r.layers[k].visibility == Visible && Admits(r.layers[k].filter, "Loss"))
      && (StateOf(states, Gain) != StateOf(states, Loss) ==> !Admits(r.layers[k].filter, if StateOf(states, Gain) then "Loss" else "Gain"))
      && (changeType !in {"Gain", "Loss"} && r.layers[k].visibility == Visible ==> !Admits(r.layers[k].filter, changeType))
  {
    SharedTruthTable(s, states);
  }

  /** The shared strategy ignores the layer id and flag it is called with,
      and applying it twice is applying it once. */
  lemma SharedIgnoresItsArguments(s: Store, id1: string, id2: string, v1: bool, v2: bool, states: map<LayerType, bool>)
    ensures ApplySpec(SharedChangeVisibility, s, id1, v1, states) == ApplySpec(SharedChangeVisibility, s, id2, v2, states)
    ensures SharedSpec(SharedSpec(s, states), states) == SharedSpec(s, states)
  {
    var r := SharedSpec(s, states);
    var rr := SharedSpec(r, states);
    SharedTruthTable(s, states);
    SharedTruthTable(r, states);
    assert rr.layers == r.layers;
  }
}
