/** The icon and legend colour of each layer type, and how the legend agrees
    with the colours the map paints. */
module LayerHelpers {
  import opened Types
  import opened MapStyleStrategies

  /** The legend icons, by what they show. */
  datatype Icon = GreenCircle | RedCircle | Herb | Droplet | Gem | ChartUp | ChartDown | Pin

  /** The seven layer types with an icon and a colour of their own. */
  predicate HasOwnLegend(t: LayerType) {
    t in {Gain, Loss, Mangrove, Flood, Carbon, CarbonGain, CarbonLoss}
  }

  /** `getLayerIcon`: an icon for every type, the pin for the rest. */
  function LayerIcon(t: LayerType): (icon: Icon)
    ensures icon == Pin <==> !HasOwnLegend(t)
  {
    match t
    case Gain => GreenCircle
    case Loss => RedCircle
    case Mangrove => Herb
    case Flood => Droplet
    case Carbon => Gem
    case CarbonGain => ChartUp
    case CarbonLoss => ChartDown
    case _ => Pin
  }

  /** `getLegendColor`: a colour for every type, grey for the rest. */
  function LegendColor(t: LayerType): (color: string)
    ensures |color| == 7 && color[0] == '#'
    ensures !HasOwnLegend(t) ==> color == "#808080"
  {
    match t
    case Gain => "#00ff00"
    case Loss => "#ff0000"
    case Mangrove => "#8B4513"
    case Flood => "#00bfff"
    case Carbon => "#FFD700"
    case CarbonGain => "#7FFF00"
    case CarbonLoss => "#FF1493"
    case _ => "#808080"
  }

  /** Distinct types with their own legend entry have distinct icons and
      distinct colours, none of them the grey of the fallback. */
  lemma LegendDistinct(t1: LayerType, t2: LayerType)
    requires HasOwnLegend(t1) && HasOwnLegend(t2) && t1 != t2
    ensures LayerIcon(t1) != LayerIcon(t2)
    ensures LegendColor(t1) != LegendColor(t2)
    ensures LegendColor(t1) != "#808080"
  {
    var c1, c2 := LegendColor(t1), LegendColor(t2);
    assert (c1[1], c1[3]) != (c2[1], c2[3]);
    assert (c1[1], c1[3]) != ('8', '8');
  }

  /** Upper-case hexadecimal of a byte. */
  function HexByte(n: int): string
    requires 0 <= n < 256
  {
    ["0123456789ABCDEF"[n / 16], "0123456789ABCDEF"[n % 16]]
  }

  /** `#RRGGBB` of a colour. */
  function Hex(c: Rgba): string
    requires 0 <= c.red < 256 && 0 <= c.green < 256 && 0 <= c.blue < 256
  {
    HexRgb(c.red, c.green, c.blue)
  }

  function HexRgb(red: int, green: int, blue: int): string
    requires 0 <= red < 256 && 0 <= green < 256 && 0 <= blue < 256
  {
    "#" + HexByte(red) + HexByte(green) + HexByte(blue)
  }

  lemma GoldHex()
    ensures HexRgb(255, 215, 0) == "#FFD700"
  {
    assert HexByte(255) == "FF" && HexByte(215) == "D7" && HexByte(0) == "00";
  }

  lemma ChartreuseHex()
    ensures HexRgb(127, 255, 0) == "#7FFF00"
  {
    assert HexByte(127) == "7F" && HexByte(255) == "FF" && HexByte(0) == "00";
  }

  lemma DeepPinkHex()
    ensures HexRgb(255, 20, 147) == "#FF1493"
  {
    assert HexByte(255) == "FF" && HexByte(20) == "14" && HexByte(147) == "93";
  }

  /** The gain and loss legend colours are the fill colours the
      mangrove-change layer gives gain and loss features. */
  lemma ChangeLegendMatchesFill(changeType: PropertyValue)
    ensures changeType == Str("Gain") ==> MatchColor(MangroveChangeStyle.fillColor.gain, MangroveChangeStyle.fillColor.loss, MangroveChangeStyle.fillColor.other, changeType) == LegendColor(Gain)
    ensures changeType == Str("Loss") ==> MatchColor(MangroveChangeStyle.fillColor.gain, MangroveChangeStyle.fillColor.loss, MangroveChangeStyle.fillColor.other, changeType) == LegendColor(Loss)
  {
    assert "#00ff00" != "#ff0000" by { assert "#00ff00"[1] != "#ff0000"[1]; }
  }

  /** For each carbon layer the legend colour is the colour of its ramp and
      the line colour used when none is configured. */
  lemma CarbonLegendMatchesStyle(config: DataSourceConfig)
    requires CarbonFamily(config.layerType) && config.style.lineColor.None?
    ensures var s := GetLayerStyleStrategy(config);
      && s.fillColor.InterpolateGridcode?
      && s.lineColor == Solid(LegendColor(config.layerType))
      && forall i :: 0 <= i < |s.fillColor.stops| ==> Hex(s.fillColor.stops[i].1) == LegendColor(config.layerType)
  {
    match config.layerType
    case Carbon => GoldHex();
    case CarbonGain => ChartreuseHex();
    case CarbonLoss => DeepPinkHex();
  }
}
