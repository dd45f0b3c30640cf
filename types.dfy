/** The value records shared by the dashboard's modules: layer tags, UI layer
    descriptors, data-source descriptors and feature properties. */
module Types {
  import opened Wrappers

  /** Every layer tag the code uses (`MapLayerType`). */
  datatype LayerType =
    | Gain | Loss | Mangrove | Forest | Water | Carbon
    | Flood | MangroveChange | CarbonGain | CarbonLoss

  /** The tag as it is written in the code. */
  function LayerTypeName(t: LayerType): string {
    match t
    case Gain => "gain"
    case Loss => "loss"
    case Mangrove => "mangrove"
    case Forest => "forest"
    case Water => "water"
    case Carbon => "carbon"
    case Flood => "flood"
    case MangroveChange => "mangrove-change"
    case CarbonGain => "carbon-gain"
    case CarbonLoss => "carbon-loss"
  }

  /** A toggle in the layer control (`MapLayer`). */
  datatype MapLayer = MapLayer(id: string, name: string, visible: bool, layerType: LayerType)

  /** The paint parameters of a data source; each may be absent at run time,
      which is what the `??` fallbacks of the style strategies guard against. */
  datatype StyleSpec = StyleSpec(
    fillColor: Option<string>,
    fillOpacity: Option<real>,
    lineColor: Option<string>,
    lineWidth: Option<real>)

  /** A data-source descriptor (`DataSourceConfig`). */
  datatype DataSourceConfig = DataSourceConfig(
    id: string,
    name: string,
    layerType: LayerType,
    dataUrl: string,
    style: StyleSpec)

  /** A feature property value, as far as the model tells values apart. */
  datatype PropertyValue = Undefined | Null | Bool(b: bool) | Int(n: int) | Str(s: string)

  /** A feature's properties as `Object.entries` lists them, in order. */
  type Properties = seq<(string, PropertyValue)>

  /** `properties[key]`: the value of the entry with that key, `undefined` if none. */
  function Lookup(props: Properties, key: string): (v: PropertyValue)
    ensures v != Undefined ==> exists i :: 0 <= i < |props| && props[i] == (key, v)
    ensures (forall i :: 0 <= i < |props| ==> props[i].0 != key) ==> v == Undefined
    ensures forall i :: 0 <= i < |props| && props[i].0 == key && (forall j :: 0 <= j < i ==> props[j].0 != key) ==>
      v == props[i].1
  {
    if props == [] then Undefined
    else if props[0].0 == key then props[0].1
    else Lookup(props[1..], key)
  }
}
