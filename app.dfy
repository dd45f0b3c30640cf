/** The application shell's state: the layer toggles, the side panel and the
    selected feature, and the two handlers that change them. */
module App {
  import opened Wrappers
  import opened Types

  /** `handleToggleLayer`'s update: every layer with the id has its flag
      flipped; the list keeps its length and order. */
  function ToggleLayer(layers: seq<MapLayer>, layerId: string): (r: seq<MapLayer>)
    ensures |r| == |layers|
    ensures forall i :: 0 <= i < |layers| && layers[i].id == layerId ==>
      r[i] == layers[i].(visible := !layers[i].visible)
    ensures forall i :: 0 <= i < |layers| && layers[i].id != layerId ==> r[i] == layers[i]
  {
    seq(|layers|, i requires 0 <= i < |layers| =>
      if layers[i].id == layerId then layers[i].(visible := !layers[i].visible) else layers[i])
  }

  /** Toggling the same id twice restores the list. */
  lemma ToggleTwice(layers: seq<MapLayer>, layerId: string)
    ensures ToggleLayer(ToggleLayer(layers, layerId), layerId) == layers
  {
    var once := ToggleLayer(layers, layerId);
    var twice := ToggleLayer(once, layerId);
    assert forall i :: 0 <= i < |layers| ==> twice[i] == layers[i];
  }

  /** Toggles of different ids do not interfere, so their order does not
      matter. */
  lemma TogglesCommute(layers: seq<MapLayer>, a: string, b: string)
    ensures ToggleLayer(ToggleLayer(layers, a), b) == ToggleLayer(ToggleLayer(layers, b), a)
  {
    var ab := ToggleLayer(ToggleLayer(layers, a), b);
    var ba := ToggleLayer(ToggleLayer(layers, b), a);
    assert forall i :: 0 <= i < |layers| ==> ab[i] == ba[i];
  }

  /** Only the flags change: ids, names and tags stay, so a toggle never
      changes which layers exist. */
  lemma ToggleKeepsIdentity(layers: seq<MapLayer>, layerId: string, i: int)
    requires 0 <= i < |layers|
    ensures var r := ToggleLayer(layers, layerId);
      r[i].id == layers[i].id && r[i].name == layers[i].name && r[i].layerType == layers[i].layerType
      && (r[i].visible != layers[i].visible <==> layers[i].id == layerId)
  {
  }

  /** The layer toggles the application starts with, all hidden. */
  const InitialLayers: seq<MapLayer> := [
    MapLayer("gain", "Mangrove Gain (2020-2024)", false, Gain),
    MapLayer("loss", "Mangrove Loss (2025)", false, Loss),
    MapLayer("mangrove", "Mangrove Zones", false, Mangrove),
    MapLayer("forest", "Degraded Forests", false, Forest),
    MapLayer("water", "Hydrological Shifts", false, Water),
    MapLayer("carbon", "Carbon Loss Areas", false, Carbon)
  ]

  class AppState {
    var layers: seq<MapLayer>
    var sidebarOpen: bool
    var selectedFeature: Option<Properties>

    constructor ()
      ensures layers == InitialLayers && !sidebarOpen && selectedFeature == None
    {
      layers := InitialLayers;
      sidebarOpen := false;
      selectedFeature := None;
    }

    /** `handleToggleLayer`: flips the layer with the id and nothing else. */
    method HandleToggleLayer(layerId: string)
      modifies this
      ensures layers == ToggleLayer(old(layers), layerId)
      ensures sidebarOpen == old(sidebarOpen) && selectedFeature == old(selectedFeature)
    {
      layers := ToggleLayer(layers, layerId);
    }

    /** `handleFeatureClick`: shows the clicked feature in the opened side
      panel; the layers stay as they are. */
    method HandleFeatureClick(feature: Properties)
      modifies this
      ensures selectedFeature == Some(feature) && sidebarOpen
      ensures layers == old(layers)
    {
      selectedFeature := Some(feature);
      sidebarOpen := true;
    }
  }

  /** The initial layers all start hidden and have distinct ids, so toggling
      one of them shows exactly that layer and leaves every other alone. */
  lemma InitialToggleFlipsOne(i: int, j: int)
    requires 0 <= i < |InitialLayers| && 0 <= j < |InitialLayers| && i != j
    ensures !InitialLayers[i].visible
    ensures ToggleLayer(InitialLayers, InitialLayers[i].id)[i].visible
    ensures ToggleLayer(InitialLayers, InitialLayers[i].id)[j] == InitialLayers[j]
  {
    var ids := ["gain", "loss", "mangrove", "forest", "water", "carbon"];
    assert forall k :: 0 <= k < |InitialLayers| ==> InitialLayers[k].id == ids[k];
    assert InitialLayers[j].id != InitialLayers[i].id;
  }
}
