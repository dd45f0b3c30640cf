/** The reload that runs when the map is ready and whenever the selected
    year changes: each data source, re-pointed at the year's file, gets its
    new data, is created, or is removed when the file has no data. */
module UseLayerDataUpdate {
  import opened Wrappers
  import opened Types
  import opened MapEngine
  import opened MapLayerUtils
  import DataSourceUtils
  import DataSources

  /** What reading a data file gave: a feature collection, nothing (a failed
      request or an unreadable body, which the fetch helper turns into
      `null`), or an exception from an engine call in the same `try`. */
  datatype FetchOutcome = Loaded(data: GeoData) | NoData | Failed

  /** The outcome for a URL; a URL with no recorded outcome gave nothing. */
  function OutcomeFor(fetched: map<string, FetchOutcome>, url: string): FetchOutcome {
    if url in fetched then fetched[url] else NoData
  }

  /** One turn of the loop for one data source. A failure may come after
      some of the source's entries were changed; the `catch` removes all of
      them, so the turn ends as after a removal either way. */
  function ReconcileSpec(s: Store, config: DataSourceConfig, outcome: FetchOutcome, layers: seq<MapLayer>): Store {
    match outcome
    case NoData => RemoveLayersSpec(s, config.id)
    case Failed => RemoveLayersSpec(s, config.id)
    case Loaded(data) =>
      var sourceId := SourceId(config.id);
      var (s1, updated) := UpdateSourceSpec(s, sourceId, data);
      if updated then s1
      else
        var s2 := AddSourceSpec(s1, sourceId, data).0;
        if FillId(config.id) !in s2.layers && LineId(config.id) !in s2.layers then
          AddLayersSpec(s2, config, sourceId, GetLayerVisibility(layers, config.layerType)).0
        else s2
  }

  method ReconcileSource(m: MapStore, config: DataSourceConfig, outcome: FetchOutcome, layers: seq<MapLayer>)
    modifies m
    ensures m.State() == ReconcileSpec(old(m.State()), config, outcome, layers)
    ensures m.listeners == old(m.listeners)
  {
    var sourceId, fillId, lineId := SourceId(config.id), FillId(config.id), LineId(config.id);
    match outcome
    case NoData =>
      RemoveMapLayers(m, config.id);
    case Failed =>
      RemoveMapLayers(m, config.id);
    case Loaded(data) =>
      var updated := UpdateSourceData(m, sourceId, data);
      if !updated {
        var _ := AddMapSource(m, sourceId, data);
        var visibility := GetLayerVisibility(layers, config.layerType);
        if fillId !in m.layers && lineId !in m.layers {
          var _ := AddMapLayers(m, config, sourceId, visibility);
        }
      }
  }

  /** What one turn does to the data source's own entries: a source without
      data loses its layers and its source; a source with data keeps or gets
      its source, with the new data unless an existing source is not GeoJSON;
      an updated source keeps its layers; a created source gets both layers,
      shown as its UI layer is, when neither existed. */
  lemma ReconcileOutcome(s: Store, config: DataSourceConfig, outcome: FetchOutcome, layers: seq<MapLayer>)
    ensures var r := ReconcileSpec(s, config, outcome, layers);
      var id := config.id;
      && (!outcome.Loaded? ==>
            SourceId(id) !in r.sources && FillId(id) !in r.layers && LineId(id) !in r.layers)
      && (outcome.Loaded? ==> SourceId(id) in r.sources)
      && (outcome.Loaded? && (SourceId(id) !in s.sources || s.sources[SourceId(id)].geojson) ==>
            r.sources[SourceId(id)] == Source(true, outcome.data))
      && (outcome.Loaded? && SourceId(id) in s.sources && s.sources[SourceId(id)].geojson ==> r.layers == s.layers)
      && (outcome.Loaded? && SourceId(id) !in s.sources && FillId(id) !in s.layers && LineId(id) !in s.layers ==>
            && FillId(id) in r.layers && LineId(id) in r.layers
            && r.layers[FillId(id)].source == SourceId(id)
            && r.layers[FillId(id)].visibility == GetLayerVisibility(layers, config.layerType)
            && r.layers[LineId(id)].visibility == GetLayerVisibility(layers, config.layerType))
      && (outcome.Loaded? && !(SourceId(id) in s.sources && s.sources[SourceId(id)].geojson)
          && (FillId(id) in s.layers || LineId(id) in s.layers) ==>
            r.layers == s.layers)
  {
    DerivedIdsDistinct(config.id, config.id);
  }

  // ---------------------------------------------------------------------------
  // Locality: a turn touches only its own data source's entries
  // ---------------------------------------------------------------------------

  predicate SameEntry<V(==)>(a: map<string, V>, b: map<string, V>, k: string) {
    (k in a <==> k in b) && (k in a ==> a[k] == b[k])
  }

  /** `s` and `t` hold the same entries for data source `id`. */
  predicate AgreeOn(s: Store, t: Store, id: string) {
    && SameEntry(s.sources, t.sources, SourceId(id))
    && SameEntry(s.layers, t.layers, FillId(id))
    && SameEntry(s.layers, t.layers, LineId(id))
  }

  /** `s` and `t` differ at most in the entries of data source `id`. */
  ghost predicate OnlyOwnChanged(s: Store, t: Store, id: string) {
    && (forall k :: k != SourceId(id) ==> SameEntry(s.sources, t.sources, k))
    && (forall k :: k != FillId(id) && k != LineId(id) ==> SameEntry(s.layers, t.layers, k))
  }

  lemma ReconcileFrame(s: Store, config: DataSourceConfig, outcome: FetchOutcome, layers: seq<MapLayer>)
    ensures OnlyOwnChanged(s, ReconcileSpec(s, config, outcome, layers), config.id)
  {
    DerivedIdsDistinct(config.id, config.id);
  }

  /** A turn's effect on its own entries depends only on those entries. */
  lemma ReconcileLocal(s: Store, t: Store, config: DataSourceConfig, outcome: FetchOutcome, layers: seq<MapLayer>)
    requires AgreeOn(s, t, config.id)
    ensures AgreeOn(ReconcileSpec(s, config, outcome, layers), ReconcileSpec(t, config, outcome, layers), config.id)
  {
    DerivedIdsDistinct(config.id, config.id);
  }

  /** A change confined to one data source leaves every other one alone. */
  lemma OtherSourceUntouched(s: Store, t: Store, a: string, b: string)
    requires OnlyOwnChanged(s, t, a) && a != b
    ensures AgreeOn(s, t, b)
  {
    DerivedIdsDistinct(a, b);
    DerivedIdsDistinct(b, a);
    DerivedIdsDistinct(b, b);
    assert SameEntry(s.sources, t.sources, SourceId(b));
    assert SameEntry(s.layers, t.layers, FillId(b));
    assert SameEntry(s.layers, t.layers, LineId(b));
  }

  // ---------------------------------------------------------------------------
  // The loop
  // ---------------------------------------------------------------------------

  /** The turns for the listed data sources, in list order. */
  function ReconcileAll(s: Store, configs: seq<DataSourceConfig>, fetched: map<string, FetchOutcome>, layers: seq<MapLayer>): Store {
    if configs == [] then s
    else
      var n := |configs| - 1;
      ReconcileSpec(ReconcileAll(s, configs[..n], fetched, layers), configs[n], OutcomeFor(fetched, configs[n].dataUrl), layers)
  }

  predicate DistinctIds(configs: seq<DataSourceConfig>) {
    forall i, j :: 0 <= i < j < |configs| ==> configs[i].id != configs[j].id
  }

  /** A data source not in the list is left alone by the loop. */
  lemma {:induction false} ReconcileAllUntouched(s: Store, configs: seq<DataSourceConfig>, fetched: map<string, FetchOutcome>, layers: seq<MapLayer>, id: string)
    requires forall i :: 0 <= i < |configs| ==> configs[i].id != id
    ensures AgreeOn(ReconcileAll(s, configs, fetched, layers), s, id)
  {
    if configs != [] {
      var n := |configs| - 1;
      var before := ReconcileAll(s, configs[..n], fetched, layers);
      ReconcileAllUntouched(s, configs[..n], fetched, layers, id);
      ReconcileFrame(before, configs[n], OutcomeFor(fetched, configs[n].dataUrl), layers);
      OtherSourceUntouched(before, ReconcileAll(s, configs, fetched, layers), configs[n].id, id);
    }
  }

  /** With distinct ids, every data source ends as if its turn had been the
      only one: the order of the list and the other sources' outcomes do not
      affect it. */
  lemma {:induction false} ReconcileAllIsolated(s: Store, configs: seq<DataSourceConfig>, fetched: map<string, FetchOutcome>, layers: seq<MapLayer>, i: int)
    requires DistinctIds(configs) && 0 <= i < |configs|
    ensures AgreeOn(ReconcileAll(s, configs, fetched, layers),
                    ReconcileSpec(s, configs[i], OutcomeFor(fetched, configs[i].dataUrl), layers),
                    configs[i].id)
  {
    var n := |configs| - 1;
    var before := ReconcileAll(s, configs[..n], fetched, layers);
    var after := ReconcileAll(s, configs, fetched, layers);
    var c := configs[i];
    if i == n {
      ReconcileAllUntouched(s, configs[..n], fetched, layers, c.id);
      ReconcileLocal(before, s, c, OutcomeFor(fetched, c.dataUrl), layers);
    } else {
      ReconcileAllIsolated(s, configs[..n], fetched, layers, i);
      ReconcileFrame(before, configs[n], OutcomeFor(fetched, configs[n].dataUrl), layers);
      OtherSourceUntouched(before, after, configs[n].id, c.id);
    }
  }

  /** The consequence for each data source at the end of the loop: without
      data it has no layers and no source; with data it has a source. */
  lemma ReconcileAllOutcome(s: Store, configs: seq<DataSourceConfig>, fetched: map<string, FetchOutcome>, layers: seq<MapLayer>, i: int)
    requires DistinctIds(configs) && 0 <= i < |configs|
    ensures var r := ReconcileAll(s, configs, fetched, layers);
      var id := configs[i].id;
      && (!OutcomeFor(fetched, configs[i].dataUrl).Loaded? ==>
            SourceId(id) !in r.sources && FillId(id) !in r.layers && LineId(id) !in r.layers)
      && (OutcomeFor(fetched, configs[i].dataUrl).Loaded? ==> SourceId(id) in r.sources)
  {
    ReconcileAllIsolated(s, configs, fetched, layers, i);
    ReconcileOutcome(s, configs[i], OutcomeFor(fetched, configs[i].dataUrl), layers);
  }

  method ReconcileLoop(m: MapStore, configs: seq<DataSourceConfig>, fetched: map<string, FetchOutcome>, layers: seq<MapLayer>)
    modifies m
    ensures m.State() == ReconcileAll(old(m.State()), configs, fetched, layers)
    ensures m.listeners == old(m.listeners)
  {
    ghost var s0 := m.State();
    var i := 0;
    while i < |configs|
      invariant 0 <= i <= |configs|
      invariant m.State() == ReconcileAll(s0, configs[..i], fetched, layers)
      invariant m.listeners == old(m.listeners)
    {
      assert configs[..i + 1][..i] == configs[..i];
      var config := configs[i];
      ReconcileSource(m, config, OutcomeFor(fetched, config.dataUrl), layers);
      i := i + 1;
    }
    assert configs[..i] == configs;
  }

  // ---------------------------------------------------------------------------
  // The hook
  // ---------------------------------------------------------------------------

  /** Whether the effect does nothing: the map is not ready, or the year is
      the one last loaded (there is none before the first run). */
  predicate Skips(initialized: bool, previousYear: Option<int>, currentYear: int) {
    !initialized || previousYear == Some(currentYear)
  }

  class LayerDataUpdate {
    var previousYear: Option<int>
    var dataLoaded: bool
    /** The values given to `setDataLoaded`, oldest first. */
    var loadedWrites: seq<bool>

    constructor ()
      ensures previousYear == None && !dataLoaded && loadedWrites == []
    {
      previousYear := None;
      dataLoaded := false;
      loadedWrites := [];
    }

    /** The effect body, its asynchronous loop run to completion: the
      sources re-pointed at the year, `dataLoaded` cleared, every source
      reconciled in order, `dataLoaded` set; the year remembered. */
    method Effect(m: MapStore, initialized: bool, currentYear: int, layers: seq<MapLayer>,
                  configs: seq<DataSourceConfig>, fetched: map<string, FetchOutcome>, baseUrl: string)
      modifies this, m
      ensures Skips(initialized, old(previousYear), currentYear) ==>
        && m.State() == old(m.State())
        && previousYear == old(previousYear) && dataLoaded == old(dataLoaded) && loadedWrites == old(loadedWrites)
      ensures !Skips(initialized, old(previousYear), currentYear) ==>
        && m.State() == ReconcileAll(old(m.State()), DataSourceUtils.UpdateDataSourcesForYear(configs, currentYear, baseUrl), fetched, layers)
        && dataLoaded && loadedWrites == old(loadedWrites) + [false, true]
        && previousYear == Some(currentYear)
      ensures m.listeners == old(m.listeners)
    {
      if !initialized {
        return;
      }
      if previousYear.Some? && previousYear.value == currentYear {
        return;
      }
      var sources := DataSourceUtils.UpdateDataSourcesForYear(configs, currentYear, baseUrl);
      dataLoaded := false;
      loadedWrites := loadedWrites + [false];
      ReconcileLoop(m, sources, fetched, layers);
      dataLoaded := true;
      loadedWrites := loadedWrites + [true];
      previousYear := Some(currentYear);
    }
  }

  /** A second run for the same year is skipped, and the first run never is
      once the map is ready. */
  lemma RunOncePerYear(initialized: bool, currentYear: int, other: int)
    ensures Skips(initialized, Some(currentYear), currentYear)
    ensures initialized ==> !Skips(initialized, None, currentYear)
    ensures initialized && other != currentYear ==> !Skips(initialized, Some(other), currentYear)
  {
  }

  /** For the sources of a year, each data source ends as after its own
      turn: the re-pointing keeps the ids distinct. */
  lemma YearReloadIsolated(s: Store, configs: seq<DataSourceConfig>, year: int, baseUrl: string,
                           fetched: map<string, FetchOutcome>, layers: seq<MapLayer>, i: int)
    requires DistinctIds(configs) && 0 <= i < |configs|
    ensures var sources := DataSourceUtils.UpdateDataSourcesForYear(configs, year, baseUrl);
      AgreeOn(ReconcileAll(s, sources, fetched, layers),
              ReconcileSpec(s, sources[i], OutcomeFor(fetched, sources[i].dataUrl), layers),
              configs[i].id)
  {
    var sources := DataSourceUtils.UpdateDataSourcesForYear(configs, year, baseUrl);
    assert DistinctIds(sources);
    ReconcileAllIsolated(s, sources, fetched, layers, i);
  }

  /** For the configured table, re-pointed at a year, each data source ends
      as after its own turn: without data it has no source and no layers,
      with data it has a source. */
  lemma TableReloadOutcome(s: Store, year: int, baseUrl: string, fetched: map<string, FetchOutcome>, layers: seq<MapLayer>, i: int)
    requires 0 <= i < |DataSources.DataSourcesTable|
    ensures var sources := DataSourceUtils.UpdateDataSourcesForYear(DataSources.DataSourcesTable, year, baseUrl);
      var r := ReconcileAll(s, sources, fetched, layers);
      var id := DataSources.DataSourcesTable[i].id;
      && (!OutcomeFor(fetched, sources[i].dataUrl).Loaded? ==>
            SourceId(id) !in r.sources && FillId(id) !in r.layers && LineId(id) !in r.layers)
      && (OutcomeFor(fetched, sources[i].dataUrl).Loaded? ==> SourceId(id) in r.sources)
  {
    var sources := DataSourceUtils.UpdateDataSourcesForYear(DataSources.DataSourcesTable, year, baseUrl);
    DataSources.TableKeysDistinct();
    assert DistinctIds(sources);
    ReconcileAllOutcome(s, sources, fetched, layers, i);
  }
}
