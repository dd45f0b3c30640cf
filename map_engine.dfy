/** The map engine as the dashboard sees it: a registry of data sources, a
    registry of layers (each drawing one source, with a visibility and a
    feature filter), the event listeners attached to layers, and the ordered
    record of the mutating calls made on it. Rendering is not modelled. */
module MapEngine {
  import opened Wrappers

  /** The `visibility` layout property: `"visible"` or `"none"`. */
  datatype Visibility = Visible | Hidden

  /** A layer's feature filter: none, or `change_type` in a set of values. */
  datatype Filter = NoFilter | ChangeTypeIn(values: set<string>)

  /** Whether a filter lets a feature with that change type through. */
  predicate Admits(f: Filter, changeType: string) {
    f.NoFilter? || changeType in f.values
  }

  /** The paint a fill or line layer is created with. */
  datatype LayerPaint =
    | FillPaint(fillColor: Option<string>, fillOpacity: Option<real>)
    | LinePaint(lineColor: Option<string>, lineWidth: Option<real>)

  datatype Layer = Layer(source: string, visibility: Visibility, filter: Filter, paint: LayerPaint)

  /** A feature collection, as an opaque value. */
  datatype GeoData = GeoData(token: int)

  /** A source; only GeoJSON sources accept new data. */
  datatype Source = Source(geojson: bool, data: GeoData)

  /** The mouse events the dashboard listens to on a layer. */
  datatype Event = Click | MouseEnter | MouseLeave

  /** An attached listener: the event, the layer, and the handler as an
      opaque token. */
  datatype Listener = Listener(event: Event, layerId: string, handler: nat)

  /** A mutating call, as it is recorded. */
  datatype Call =
    | AddedSource(sourceId: string)
    | AddedLayer(layerId: string)
    | RemovedLayer(layerId: string)
    | RemovedSource(sourceId: string)
    | SetVisibility(layerId: string, visibility: Visibility)
    | SetFilter(layerId: string, filter: Filter)
    | SetData(sourceId: string)
    | Attached(listener: Listener)
    | Detached(listener: Listener)

  /** The two registries as a value, for stating what an operation does. */
  datatype Store = Store(sources: map<string, Source>, layers: map<string, Layer>)

  class MapStore {
    var sources: map<string, Source>
    var layers: map<string, Layer>
    var listeners: set<Listener>
    var calls: seq<Call>

    constructor ()
      ensures sources == map[] && layers == map[] && listeners == {} && calls == []
    {
      sources := map[];
      layers := map[];
      listeners := {};
      calls := [];
    }

    function State(): Store
      reads this
    {
      Store(sources, layers)
    }

    /** `addSource`; the engine refuses an id in use. */
    method AddSource(id: string, source: Source)
      requires id !in sources
      modifies this
      ensures sources == old(sources)[id := source]
      ensures layers == old(layers) && listeners == old(listeners)
      ensures calls == old(calls) + [AddedSource(id)]
    {
      sources := sources[id := source];
      calls := calls + [AddedSource(id)];
    }

    /** `addLayer`; the engine refuses an id in use. */
    method AddLayer(id: string, layer: Layer)
      requires id !in layers
      modifies this
      ensures layers == old(layers)[id := layer]
      ensures sources == old(sources) && listeners == old(listeners)
      ensures calls == old(calls) + [AddedLayer(id)]
    {
      layers := layers[id := layer];
      calls := calls + [AddedLayer(id)];
    }

    /** `removeLayer` of an existing layer. */
    method RemoveLayer(id: string)
      requires id in layers
      modifies this
      ensures layers == old(layers) - {id}
      ensures sources == old(sources) && listeners == old(listeners)
      ensures calls == old(calls) + [RemovedLayer(id)]
    {
      layers := layers - {id};
      calls := calls + [RemovedLayer(id)];
    }

    /** `removeSource` of an existing source. */
    method RemoveSource(id: string)
      requires id in sources
      modifies this
      ensures sources == old(sources) - {id}
      ensures layers == old(layers) && listeners == old(listeners)
      ensures calls == old(calls) + [RemovedSource(id)]
    {
      sources := sources - {id};
      calls := calls + [RemovedSource(id)];
    }

    /** `setLayoutProperty(id, "visibility", v)` on an existing layer. */
    method SetLayoutVisibility(id: string, v: Visibility)
      requires id in layers
      modifies this
      ensures layers == old(layers)[id := old(layers)[id].(visibility := v)]
      ensures sources == old(sources) && listeners == old(listeners)
      ensures calls == old(calls) + [SetVisibility(id, v)]
    {
      layers := layers[id := layers[id].(visibility := v)];
      calls := calls + [SetVisibility(id, v)];
    }

    /** `setFilter` on an existing layer. */
    method SetLayerFilter(id: string, f: Filter)
      requires id in layers
      modifies this
      ensures layers == old(layers)[id := old(layers)[id].(filter := f)]
      ensures sources == old(sources) && listeners == old(listeners)
      ensures calls == old(calls) + [SetFilter(id, f)]
    {
      layers := layers[id := layers[id].(filter := f)];
      calls := calls + [SetFilter(id, f)];
    }

    /** `GeoJSONSource.setData` on an existing GeoJSON source. */
    method SetSourceData(id: string, data: GeoData)
      requires id in sources && sources[id].geojson
      modifies this
      ensures sources == old(sources)[id := Source(true, data)]
      ensures layers == old(layers) && listeners == old(listeners)
      ensures calls == old(calls) + [SetData(id)]
    {
      sources := sources[id := Source(true, data)];
      calls := calls + [SetData(id)];
    }

    /** `on(event, layerId, handler)`. */
    method On(l: Listener)
      modifies this
      ensures listeners == old(listeners) + {l}
      ensures sources == old(sources) && layers == old(layers)
      ensures calls == old(calls) + [Attached(l)]
    {
      listeners := listeners + {l};
      calls := calls + [Attached(l)];
    }

    /** `off(event, layerId, handler)`: detaches that listener if attached. */
    method Off(l: Listener)
      modifies this
      ensures listeners == old(listeners) - {l}
      ensures sources == old(sources) && layers == old(layers)
      ensures calls == old(calls) + [Detached(l)]
    {
      listeners := listeners - {l};
      calls := calls + [Detached(l)];
    }
  }
}
