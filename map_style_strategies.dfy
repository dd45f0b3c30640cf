/** The paint of a data source's fill and line layers, chosen by layer type:
    the configured colours for most layers, a colour per change type for the
    mangrove-change layer, and a transparency ramp over `gridcode` for the
    carbon layers. */
module MapStyleStrategies {
  import opened Wrappers
  import opened Types

  /** An `rgba(r, g, b, a)` colour. */
  datatype Rgba = Rgba(red: int, green: int, blue: int, alpha: real)

  /** A paint value: a fixed colour, a `match` on the feature's `change_type`
      (`Gain`, `Loss`, anything else), or a linear `interpolate` on the
      feature's `gridcode` through (input, colour) stops. */
  datatype Paint =
    | Solid(color: string)
    | MatchChangeType(gain: string, loss: string, other: string)
    | InterpolateGridcode(stops: seq<(int, Rgba)>)

  /** `LayerStyleStrategy`. */
  datatype LayerStyle = LayerStyle(fillColor: Paint, lineColor: Paint, fillOpacity: real, lineWidth: real)

  /** The strategies that the table names. */
  datatype StyleStrategy = DefaultPaint | MangroveChangePaint | CarbonPaint | CarbonGainPaint | CarbonLossPaint

  /** `defaultStrategy`: each configured value where present, a grey
      fallback where absent. */
  function DefaultStyle(config: DataSourceConfig): (s: LayerStyle)
    ensures s.fillColor == Solid(if config.style.fillColor.Some? then config.style.fillColor.value else "#808080")
    ensures s.lineColor == Solid(if config.style.lineColor.Some? then config.style.lineColor.value else "#606060")
    ensures s.fillOpacity == (if config.style.fillOpacity.Some? then config.style.fillOpacity.value else 0.5)
    ensures s.lineWidth == (if config.style.lineWidth.Some? then config.style.lineWidth.value else 1.5)
  {
    LayerStyle(
      Solid(config.style.fillColor.GetOr("#808080")),
      Solid(config.style.lineColor.GetOr("#606060")),
      config.style.fillOpacity.GetOr(0.5),
      config.style.lineWidth.GetOr(1.5))
  }

  /** `mangroveChangeStrategy`: green for gain, red for loss, grey
      otherwise, whatever the configuration says. */
  const MangroveChangeStyle: LayerStyle :=
    LayerStyle(
      MatchChangeType("#00ff00", "#ff0000", "#808080"),
      MatchChangeType("#00aa00", "#aa0000", "#606060"),
      0.6,
      1.5)

  /** The carbon ramp: one colour, from 10% opaque at gridcode 0 through 50%
      at 50 to opaque at 100. */
  function Ramp(red: int, green: int, blue: int): seq<(int, Rgba)> {
    [(0, Rgba(red, green, blue, 0.1)), (50, Rgba(red, green, blue, 0.5)), (100, Rgba(red, green, blue, 1.0))]
  }

  /** What the three carbon strategies share: the ramp as fill, opacity 1
      (the transparency is in the ramp), a thin line in the configured
      colour or the ramp's colour. */
  function CarbonFamilyStyle(config: DataSourceConfig, red: int, green: int, blue: int, fallbackLine: string): LayerStyle {
    LayerStyle(
      InterpolateGridcode(Ramp(red, green, blue)),
      Solid(config.style.lineColor.GetOr(fallbackLine)),
      1.0,
      0.5)
  }

  /** `carbonStrategy`: gold. */
  function CarbonStyle(config: DataSourceConfig): LayerStyle {
    CarbonFamilyStyle(config, 255, 215, 0, "#FFD700")
  }

  /** `carbonGainStrategy`: chartreuse. */
  function CarbonGainStyle(config: DataSourceConfig): LayerStyle {
    CarbonFamilyStyle(config, 127, 255, 0, "#7FFF00")
  }

  /** `carbonLossStrategy`: deep pink. */
  function CarbonLossStyle(config: DataSourceConfig): LayerStyle {
    CarbonFamilyStyle(config, 255, 20, 147, "#FF1493")
  }

  /** `LAYER_STYLE_STRATEGIES[layerType] || defaultStrategy`. */
  function StrategyFor(t: LayerType): (s: StyleStrategy)
    ensures s == DefaultPaint <==> t !in {MangroveChange, Carbon, CarbonGain, CarbonLoss}
  {
    match t
    case MangroveChange => MangroveChangePaint
    case Carbon => CarbonPaint
    case CarbonGain => CarbonGainPaint
    case CarbonLoss => CarbonLossPaint
    case _ => DefaultPaint
  }

  function Apply(strategy: StyleStrategy, config: DataSourceConfig): LayerStyle {
    match strategy
    case DefaultPaint => DefaultStyle(config)
    case MangroveChangePaint => MangroveChangeStyle
    case CarbonPaint => CarbonStyle(config)
    case CarbonGainPaint => CarbonGainStyle(config)
    case CarbonLossPaint => CarbonLossStyle(config)
  }

  /** `getLayerStyleStrategy`: the strategy of the config's layer type,
      applied to the config. */
  function GetLayerStyleStrategy(config: DataSourceConfig): (s: LayerStyle)
    ensures config.layerType !in {MangroveChange, Carbon, CarbonGain, CarbonLoss} ==> s == DefaultStyle(config)
    ensures config.layerType == MangroveChange ==> s == MangroveChangeStyle
    ensures config.layerType in {Carbon, CarbonGain, CarbonLoss} ==> s.fillColor.InterpolateGridcode?
  {
    Apply(StrategyFor(config.layerType), config)
  }

  predicate CarbonFamily(t: LayerType) {
    t == Carbon || t == CarbonGain || t == CarbonLoss
  }

  /** The stops of a ramp rise strictly in input and in opacity, and share
      one colour. */
  predicate WellFormedRamp(stops: seq<(int, Rgba)>) {
    && |stops| >= 2
    && (forall i, j :: 0 <= i < j < |stops| ==> stops[i].0 < stops[j].0 && stops[i].1.alpha < stops[j].1.alpha)
    && (forall i :: 0 <= i < |stops| ==> 0.0 < stops[i].1.alpha <= 1.0)
    && (forall i :: 0 <= i < |stops| ==>
          stops[i].1.red == stops[0].1.red && stops[i].1.green == stops[0].1.green && stops[i].1.blue == stops[0].1.blue)
  }

  /** Every carbon-family style is a valid ramp from 0 to 100 drawn at full
      layer opacity, and its line colour is the configured one when there is
      one. */
  lemma CarbonFamilyStyles(config: DataSourceConfig)
    requires CarbonFamily(config.layerType)
    ensures var s := GetLayerStyleStrategy(config);
      && s.fillColor.InterpolateGridcode? && WellFormedRamp(s.fillColor.stops)
      && s.fillColor.stops[0].0 == 0 && s.fillColor.stops[|s.fillColor.stops| - 1].0 == 100
      && s.fillOpacity == 1.0 && s.lineWidth == 0.5
      && (config.style.lineColor.Some? ==> s.lineColor == Solid(config.style.lineColor.value))
  {
    match config.layerType
    case Carbon => RampWellFormed(255, 215, 0);
    case CarbonGain => RampWellFormed(127, 255, 0);
    case CarbonLoss => RampWellFormed(255, 20, 147);
  }

  lemma RampWellFormed(red: int, green: int, blue: int)
    ensures WellFormedRamp(Ramp(red, green, blue))
  {
  }

  /** The mangrove-change style ignores the configuration entirely. */
  lemma MangroveChangeIgnoresConfig(c1: DataSourceConfig, c2: DataSourceConfig)
    requires c1.layerType == MangroveChange && c2.layerType == MangroveChange
    ensures GetLayerStyleStrategy(c1) == GetLayerStyleStrategy(c2)
  {
  }

  /** The colour a `change_type` match gives a feature. */
  function MatchColor(gain: string, loss: string, other: string, changeType: PropertyValue): (c: string)
    ensures c in {gain, loss, other}
    ensures changeType == Str("Gain") ==> c == gain
    ensures changeType == Str("Loss") ==> c == loss
    ensures changeType != Str("Gain") && changeType != Str("Loss") ==> c == other
  {
    if changeType == Str("Gain") then gain
    else if changeType == Str("Loss") then loss
    else other
  }

  /** In the mangrove-change layer gain, loss and unchanged features are told
      apart by fill and by line colour. */
  lemma ChangeTypesDistinguishable(a: PropertyValue, b: PropertyValue)
    requires a in {Str("Gain"), Str("Loss")} && a != b
    ensures MatchColor("#00ff00", "#ff0000", "#808080", a) != MatchColor("#00ff00", "#ff0000", "#808080", b)
    ensures MatchColor("#00aa00", "#aa0000", "#606060", a) != MatchColor("#00aa00", "#aa0000", "#606060", b)
  {
    assert "#00ff00"[1] != "#ff0000"[1] && "#00ff00"[1] != "#808080"[1] && "#ff0000"[1] != "#808080"[1];
    assert "#00aa00"[1] != "#aa0000"[1] && "#00aa00"[1] != "#606060"[1] && "#aa0000"[1] != "#606060"[1];
  }
}
