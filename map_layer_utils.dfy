/** The helpers that add, remove and update a data source's map entries.
    A data source `id` is drawn by the fill layer `id-fill` and the line
    layer `id-line`, which read the source `id-source`. Each helper is a pure
    function over the registries, and a method on the engine proved to have
    exactly that effect. */
module MapLayerUtils {
  import opened Wrappers
  import opened Types
  import opened MapEngine

  function FillId(id: string): string {
    id + "-fill"
  }

  function LineId(id: string): string {
    id + "-line"
  }

  function SourceId(id: string): string {
    id + "-source"
  }

  /** Appending a common suffix is injective. */
  lemma SuffixInjective(a: string, b: string, suffix: string)
    requires a + suffix == b + suffix
    ensures a == b
  {
    assert |a| == |b|;
    assert a == (a + suffix)[..|a|];
    assert b == (b + suffix)[..|b|];
  }

  /** The three derived ids never collide: not across kinds, and within a
      kind only for the same data source. */
  lemma DerivedIdsDistinct(a: string, b: string)
    ensures FillId(a) != LineId(b) && FillId(a) != SourceId(b) && LineId(a) != SourceId(b)
    ensures FillId(a) == FillId(b) || LineId(a) == LineId(b) || SourceId(a) == SourceId(b) ==> a == b
  {
    var f, l, s := FillId(a), LineId(b), SourceId(b);
    assert f[|f| - 1] == 'l' && l[|l| - 1] == 'e' && s[|s| - 1] == 'e';
    var l2, s2 := LineId(a), SourceId(b);
    assert l2[|l2| - 2] == 'n' && s2[|s2| - 2] == 'c';
    if FillId(a) == FillId(b) {
      SuffixInjective(a, b, "-fill");
    } else if LineId(a) == LineId(b) {
      SuffixInjective(a, b, "-line");
    } else if SourceId(a) == SourceId(b) {
      SuffixInjective(a, b, "-source");
    }
  }

  // ---------------------------------------------------------------------------
  // addMapSource
  // ---------------------------------------------------------------------------

  /** `addMapSource`: a new GeoJSON source, unless the id is taken. */
  function AddSourceSpec(s: Store, sourceId: string, data: GeoData): (Store, bool) {
    if sourceId in s.sources then (s, false)
    else (s.(sources := s.sources[sourceId := Source(true, data)]), true)
  }

  /** Adding reports whether the id was free, never replaces an existing
      source, and afterwards the id is taken. */
  lemma AddSourceNeverOverwrites(s: Store, sourceId: string, data: GeoData)
    ensures var (r, added) := AddSourceSpec(s, sourceId, data);
      && (added <==> sourceId !in s.sources)
      && r.sources.Keys == s.sources.Keys + {sourceId}
      && (forall k :: k in s.sources ==> r.sources[k] == s.sources[k])
      && (added ==> r.sources[sourceId] == Source(true, data))
      && r.layers == s.layers
  {
  }

  method AddMapSource(m: MapStore, sourceId: string, data: GeoData) returns (added: bool)
    modifies m
    ensures (m.State(), added) == AddSourceSpec(old(m.State()), sourceId, data)
    ensures m.listeners == old(m.listeners)
    ensures m.calls == old(m.calls) + (if added then [AddedSource(sourceId)] else [])
  {
    if sourceId in m.sources {
      return false;
    }
    m.AddSource(sourceId, Source(true, data));
    return true;
  }

  // ---------------------------------------------------------------------------
  // addMapLayers
  // ---------------------------------------------------------------------------

  function FillLayer(config: DataSourceConfig, sourceId: string, v: Visibility): Layer {
    Layer(sourceId, v, NoFilter, FillPaint(config.style.fillColor, config.style.fillOpacity))
  }

  function LineLayer(config: DataSourceConfig, sourceId: string, v: Visibility): Layer {
    Layer(sourceId, v, NoFilter, LinePaint(config.style.lineColor, config.style.lineWidth))
  }

  /** `addMapLayers`: both layers of the data source, unless either exists. */
  function AddLayersSpec(s: Store, config: DataSourceConfig, sourceId: string, v: Visibility): (Store, bool) {
    if FillId(config.id) in s.layers || LineId(config.id) in s.layers then (s, false)
    else
      var layers := s.layers[FillId(config.id) := FillLayer(config, sourceId, v)][LineId(config.id) := LineLayer(config, sourceId, v)];
      (s.(layers := layers), true)
  }

  /** All or nothing: both layers are added, on the source and with the
      visibility given and no filter, exactly when neither existed; nothing
      else changes. */
  lemma AddLayersAllOrNothing(s: Store, config: DataSourceConfig, sourceId: string, v: Visibility)
    ensures var (r, added) := AddLayersSpec(s, config, sourceId, v);
      && (added <==> FillId(config.id) !in s.layers && LineId(config.id) !in s.layers)
      && r.sources == s.sources
      && (!added ==> r == s)
      && (added ==> r.layers.Keys == s.layers.Keys + {FillId(config.id), LineId(config.id)})
      && (added ==> forall k :: k in s.layers ==> r.layers[k] == s.layers[k])
      && (added ==> forall id :: id in {FillId(config.id), LineId(config.id)} ==>
            r.layers[id].source == sourceId && r.layers[id].visibility == v && r.layers[id].filter == NoFilter)
  {
    DerivedIdsDistinct(config.id, config.id);
  }

  method AddMapLayers(m: MapStore, config: DataSourceConfig, sourceId: string, v: Visibility) returns (added: bool)
    modifies m
    ensures (m.State(), added) == AddLayersSpec(old(m.State()), config, sourceId, v)
    ensures m.listeners == old(m.listeners)
    ensures m.calls == old(m.calls) + (if added then [AddedLayer(FillId(config.id)), AddedLayer(LineId(config.id))] else [])
  {
    var fill, line := FillId(config.id), LineId(config.id);
    if fill in m.layers || line in m.layers {
      return false;
    }
    DerivedIdsDistinct(config.id, config.id);
    m.AddLayer(fill, FillLayer(config, sourceId, v));
    m.AddLayer(line, LineLayer(config, sourceId, v));
    return true;
  }

  // ---------------------------------------------------------------------------
  // removeMapLayers
  // ---------------------------------------------------------------------------

  /** `removeMapLayers`: the fill layer, the line layer and the source of the
      data source, each if present. */
  function RemoveLayersSpec(s: Store, id: string): Store {
    Store(s.sources - {SourceId(id)}, s.layers - {FillId(id), LineId(id)})
  }

  /** The calls `removeMapLayers` makes: the layers first, then the source. */
  function RemovalCalls(s: Store, id: string): seq<Call> {
    (if FillId(id) in s.layers then [RemovedLayer(FillId(id))] else [])
    + (if LineId(id) in s.layers then [RemovedLayer(LineId(id))] else [])
    + (if SourceId(id) in s.sources then [RemovedSource(SourceId(id))] else [])
  }

  /** Afterwards the three entries are gone and every other entry is as it
      was; removing again changes nothing and makes no call; the source, if
      removed, is removed last. */
  lemma RemoveLayersResult(s: Store, id: string)
    ensures var r := RemoveLayersSpec(s, id);
      && SourceId(id) !in r.sources && FillId(id) !in r.layers && LineId(id) !in r.layers
      && (forall k :: k in s.sources && k != SourceId(id) ==> k in r.sources && r.sources[k] == s.sources[k])
      && (forall k :: k in s.layers && k != FillId(id) && k != LineId(id) ==> k in r.layers && r.layers[k] == s.layers[k])
      && RemoveLayersSpec(r, id) == r
      && RemovalCalls(r, id) == []
    ensures var c := RemovalCalls(s, id);
      forall i :: 0 <= i < |c| && c[i].RemovedSource? ==> i == |c| - 1
  {
  }

  method RemoveMapLayers(m: MapStore, id: string)
    modifies m
    ensures m.State() == RemoveLayersSpec(old(m.State()), id)
    ensures m.listeners == old(m.listeners)
    ensures m.calls == old(m.calls) + RemovalCalls(old(m.State()), id)
  {
    var fill, line, source := FillId(id), LineId(id), SourceId(id);
    DerivedIdsDistinct(id, id);
    ghost var s := m.State();
    ghost var c0 := m.calls;
    if fill in m.layers {
      m.RemoveLayer(fill);
    }
    ghost var c1 := m.calls;
    assert c1 == c0 + (if fill in s.layers then [RemovedLayer(fill)] else []);
    if line in m.layers {
      m.RemoveLayer(line);
    }
    assert m.calls == c1 + (if line in s.layers then [RemovedLayer(line)] else []);
    if source in m.sources {
      m.RemoveSource(source);
    }
  }

  // ---------------------------------------------------------------------------
  // updateLayerVisibility
  // ---------------------------------------------------------------------------

  /** The layer with that id given the visibility, if it exists. */
  function WithVisibility(layers: map<string, Layer>, layerId: string, v: Visibility): map<string, Layer> {
    if layerId in layers then layers[layerId := layers[layerId].(visibility := v)] else layers
  }

  /** `updateLayerVisibility`: the visibility of whichever of the two layers
      exist. */
  function VisibilitySpec(s: Store, id: string, v: Visibility): Store {
    s.(layers := WithVisibility(WithVisibility(s.layers, FillId(id), v), LineId(id), v))
  }

  function VisibilityCalls(s: Store, id: string, v: Visibility): seq<Call> {
    (if FillId(id) in s.layers then [SetVisibility(FillId(id), v)] else [])
    + (if LineId(id) in s.layers then [SetVisibility(LineId(id), v)] else [])
  }

  /** No layer is created or removed; the existing ones of the data source
      get the visibility with everything else about them kept; every other
      layer and every source stay; a second update changes nothing. */
  lemma VisibilityResult(s: Store, id: string, v: Visibility)
    ensures var r := VisibilitySpec(s, id, v);
      && r.sources == s.sources
      && r.layers.Keys == s.layers.Keys
      && (forall k :: k in s.layers && (k == FillId(id) || k == LineId(id)) ==>
            r.layers[k] == s.layers[k].(visibility := v))
      && (forall k :: k in s.layers && k != FillId(id) && k != LineId(id) ==> r.layers[k] == s.layers[k])
      && VisibilitySpec(r, id, v) == r
  {
    DerivedIdsDistinct(id, id);
  }

  method UpdateLayerVisibility(m: MapStore, id: string, v: Visibility)
    modifies m
    ensures m.State() == VisibilitySpec(old(m.State()), id, v)
    ensures m.listeners == old(m.listeners)
    ensures m.calls == old(m.calls) + VisibilityCalls(old(m.State()), id, v)
  {
    var fill, line := FillId(id), LineId(id);
    if fill in m.layers {
      m.SetLayoutVisibility(fill, v);
    }
    if line in m.layers {
      m.SetLayoutVisibility(line, v);
    }
  }

  // ---------------------------------------------------------------------------
  // applyLayerFilter
  // ---------------------------------------------------------------------------

  /** The layer with that id given the filter, if it exists. */
  function WithFilter(layers: map<string, Layer>, layerId: string, f: Filter): map<string, Layer> {
    if layerId in layers then layers[layerId := layers[layerId].(filter := f)] else layers
  }

  /** `applyLayerFilter(map, id, "change_type", values)`: both layers of the
      data source keep only the features whose change type is one of the
      values. */
  function FilterSpec(s: Store, id: string, values: set<string>): Store {
    s.(layers := WithFilter(WithFilter(s.layers, FillId(id), ChangeTypeIn(values)), LineId(id), ChangeTypeIn(values)))
  }

  function FilterCalls(s: Store, id: string, values: set<string>): seq<Call> {
    (if FillId(id) in s.layers then [SetFilter(FillId(id), ChangeTypeIn(values))] else [])
    + (if LineId(id) in s.layers then [SetFilter(LineId(id), ChangeTypeIn(values))] else [])
  }

  /** Filtering touches only the filters of the data source's own layers. */
  lemma FilterResult(s: Store, id: string, values: set<string>)
    ensures var r := FilterSpec(s, id, values);
      && r.sources == s.sources
      && r.layers.Keys == s.layers.Keys
      && (forall k :: k in s.layers && (k == FillId(id) || k == LineId(id)) ==>
            r.layers[k] == s.layers[k].(filter := ChangeTypeIn(values)))
      && (forall k :: k in s.layers && k != FillId(id) && k != LineId(id) ==> r.layers[k] == s.layers[k])
  {
    DerivedIdsDistinct(id, id);
  }

  method ApplyLayerFilter(m: MapStore, id: string, values: set<string>)
    modifies m
    ensures m.State() == FilterSpec(old(m.State()), id, values)
    ensures m.listeners == old(m.listeners)
    ensures m.calls == old(m.calls) + FilterCalls(old(m.State()), id, values)
  {
    var fill, line := FillId(id), LineId(id);
    if fill in m.layers {
      m.SetLayerFilter(fill, ChangeTypeIn(values));
    }
    if line in m.layers {
      m.SetLayerFilter(line, ChangeTypeIn(values));
    }
  }

  // ---------------------------------------------------------------------------
  // updateSourceData
  // ---------------------------------------------------------------------------

  /** `updateSourceData`: new data for an existing GeoJSON source. */
  function UpdateSourceSpec(s: Store, sourceId: string, data: GeoData): (Store, bool) {
    if sourceId in s.sources && s.sources[sourceId].geojson then
      (s.(sources := s.sources[sourceId := Source(true, data)]), true)
    else (s, false)
  }

  /** The update succeeds exactly for an existing GeoJSON source, then
      replaces only that source's data; it never adds a source or a layer. */
  lemma UpdateSourceResult(s: Store, sourceId: string, data: GeoData)
    ensures var (r, updated) := UpdateSourceSpec(s, sourceId, data);
      && (updated <==> sourceId in s.sources && s.sources[sourceId].geojson)
      && r.layers == s.layers
      && r.sources.Keys == s.sources.Keys
      && (updated ==> r.sources[sourceId].data == data)
      && (forall k :: k in s.sources && k != sourceId ==> r.sources[k] == s.sources[k])
      && (!updated ==> r == s)
  {
  }

  method UpdateSourceData(m: MapStore, sourceId: string, data: GeoData) returns (updated: bool)
    modifies m
    ensures (m.State(), updated) == UpdateSourceSpec(old(m.State()), sourceId, data)
    ensures m.listeners == old(m.listeners)
    ensures m.calls == old(m.calls) + (if updated then [SetData(sourceId)] else [])
  {
    if sourceId in m.sources && m.sources[sourceId].geojson {
      m.SetSourceData(sourceId, data);
      return true;
    }
    return false;
  }

  // ---------------------------------------------------------------------------
  // getLayerVisibility
  // ---------------------------------------------------------------------------

  /** `getLayerVisibility`: visible exactly when the first UI layer of the
      type is switched on; hidden when there is none. */
  function GetLayerVisibility(layers: seq<MapLayer>, t: LayerType): (v: Visibility)
    ensures v == Visible <==> exists i :: 0 <= i < |layers| && FirstOfType(layers, t, i) && layers[i].visible
    ensures (forall i :: 0 <= i < |layers| ==> layers[i].layerType != t) ==> v == Hidden
  {
    if layers == [] then Hidden
    else if layers[0].layerType == t then
      assert FirstOfType(layers, t, 0);
      if layers[0].visible then Visible else Hidden
    else
      var v := GetLayerVisibility(layers[1..], t);
      assert forall i :: 1 <= i < |layers| ==> (FirstOfType(layers, t, i) <==> FirstOfType(layers[1..], t, i - 1));
      assert forall i :: 0 <= i < |layers| && FirstOfType(layers, t, i) ==> i >= 1;
      v
  }

  /** Position `i` holds the first UI layer of type `t`. */
  predicate FirstOfType(layers: seq<MapLayer>, t: LayerType, i: int) {
    0 <= i < |layers| && layers[i].layerType == t
    && forall j :: 0 <= j < i ==> layers[j].layerType != t
  }
}
