/** What the feature-information panel shows for a clicked feature: a badge
    naming the layer, the year or period row, the carbon amount row of the
    carbon layers, then one row per displayable property. */
module FeatureInfo {
  import opened Wrappers
  import opened JsText
  import opened Types
  import opened FormatHelpers

  /** A `property-row`: the key text and the value text. */
  type Row = (string, string)

  /** The badge: its CSS class and its text. */
  datatype Badge = Badge(cssClass: string, text: string)

  datatype Panel = Panel(badge: Option<Badge>, rows: seq<Row>)

  predicate IsCarbonLayer(layerType: Option<LayerType>) {
    layerType == Some(Carbon) || layerType == Some(CarbonGain) || layerType == Some(CarbonLoss)
  }

  /** The key of the year row. */
  function YearLabel(layerType: Option<LayerType>): (text: string)
    ensures text == "Period" <==> layerType in {Some(MangroveChange), Some(CarbonGain), Some(CarbonLoss)}
    ensures text != "Period" ==> text == "Year"
  {
    if layerType == Some(MangroveChange) || layerType == Some(CarbonGain) || layerType == Some(CarbonLoss) then "Period"
    else "Year"
  }

  /** The value of the year row: the change span for mangrove change, the
      fixed carbon periods, otherwise the selected year. */
  function YearValue(layerType: Option<LayerType>, year: int): string {
    if layerType == Some(MangroveChange) then IntToString(year - 1) + " - " + IntToString(year)
    else if layerType == Some(CarbonGain) || layerType == Some(CarbonLoss) then "2014 - 2024"
    else if layerType == Some(Carbon) then "2014"
    else IntToString(year)
  }

  lemma NoSpace(n: int)
    ensures ' ' !in IntToString(n)
  {
  }

  /** The year value names its year: for mangrove change the two ends of the
      span read back as the year before and the year, for the layers without
      a fixed period the whole value reads back as the year. */
  lemma YearValueReadsBack(layerType: Option<LayerType>, year: int)
    ensures layerType == Some(MangroveChange) ==>
      var parts := Split(YearValue(layerType, year), ' ');
      |parts| == 3 && parts[1] == "-"
      && ParseInteger(parts[0]) == Some(year - 1) && ParseInteger(parts[2]) == Some(year)
    ensures !IsCarbonLayer(layerType) && layerType != Some(MangroveChange) ==>
      ParseInteger(YearValue(layerType, year)) == Some(year)
    ensures IsCarbonLayer(layerType) ==> YearValue(layerType, year) == YearValue(layerType, year + 1)
  {
    if layerType == Some(MangroveChange) {
      var before, after := IntToString(year - 1), IntToString(year);
      NoSpace(year - 1);
      NoSpace(year);
      assert Join([after], ' ') == after;
      assert Join(["-", after], ' ') == "-" + [' '] + after;
      assert YearValue(layerType, year) == Join([before, "-", after], ' ');
      SplitJoin([before, "-", after], ' ');
      ParseIntToString(year - 1);
      ParseIntToString(year);
    } else if !IsCarbonLayer(layerType) {
      ParseIntToString(year);
    }
  }

  /** `changeType === "Gain"` / `"Loss"`. */
  function ChangeTypeOf(feature: Properties): PropertyValue {
    Lookup(feature, "change_type")
  }

  /** `getBadgeClass`: the gain or loss class for a recognised mangrove
      change, otherwise the class of the layer type, otherwise the plain
      badge. */
  function BadgeClass(layerType: Option<LayerType>, changeType: PropertyValue): (c: string)
    ensures layerType == Some(MangroveChange) && changeType == Str("Gain") ==> c == "feature-type-badge feature-type-badge-gain"
    ensures layerType == Some(MangroveChange) && changeType == Str("Loss") ==> c == "feature-type-badge feature-type-badge-loss"
    ensures layerType == Some(MangroveChange) && changeType != Str("Gain") && changeType != Str("Loss") ==> c == "feature-type-badge"
    ensures layerType in {None, Some(Gain), Some(Loss), Some(Forest), Some(Water)} ==> c == "feature-type-badge"
  {
    if layerType == Some(MangroveChange) && changeType == Str("Gain") then "feature-type-badge feature-type-badge-gain"
    else if layerType == Some(MangroveChange) && changeType == Str("Loss") then "feature-type-badge feature-type-badge-loss"
    else
      match layerType
      case Some(Mangrove) => "feature-type-badge feature-type-badge-mangrove"
      case Some(Flood) => "feature-type-badge feature-type-badge-flood"
      case Some(Carbon) => "feature-type-badge feature-type-badge-carbon"
      case Some(CarbonGain) => "feature-type-badge feature-type-badge-carbon-gain"
      case Some(CarbonLoss) => "feature-type-badge feature-type-badge-carbon-loss"
      case _ => "feature-type-badge"
  }

  /** The five layers with a class of their own get the class named after
      their tag. */
  lemma BadgeClassNamesLayer(t: LayerType, changeType: PropertyValue)
    requires t in {Mangrove, Flood, Carbon, CarbonGain, CarbonLoss}
    ensures BadgeClass(Some(t), changeType) == "feature-type-badge feature-type-badge-" + LayerTypeName(t)
  {
    match t
    case Mangrove =>
      assert "feature-type-badge feature-type-badge-" + "mangrove" == "feature-type-badge feature-type-badge-mangrove";
    case Flood =>
      assert "feature-type-badge feature-type-badge-" + "flood" == "feature-type-badge feature-type-badge-flood";
    case Carbon =>
      assert "feature-type-badge feature-type-badge-" + "carbon" == "feature-type-badge feature-type-badge-carbon";
    case CarbonGain =>
      assert "feature-type-badge feature-type-badge-" + "carbon-gain" == "feature-type-badge feature-type-badge-carbon-gain";
    case CarbonLoss =>
      assert "feature-type-badge feature-type-badge-" + "carbon-loss" == "feature-type-badge feature-type-badge-carbon-loss";
  }

  /** The badge text: gain or loss for mangrove change (loss whenever the
      change type is not exactly `Gain`), the formatted tag otherwise. */
  function BadgeLabel(layerType: Option<LayerType>, changeType: PropertyValue): (text: string)
    ensures layerType == Some(MangroveChange) ==> (text == "Mangrove gain" <==> changeType == Str("Gain"))
    ensures layerType == Some(MangroveChange) && changeType != Str("Gain") ==> text == "Mangrove loss"
    ensures layerType != Some(MangroveChange) ==>
      text == FormatKey(if layerType.Some? then LayerTypeName(layerType.value) else "")
  {
    if layerType == Some(MangroveChange) then
      if changeType == Str("Gain") then "Mangrove gain" else "Mangrove loss"
    else FormatKey(if layerType.Some? then LayerTypeName(layerType.value) else "")
  }

  /** A change feature whose change type is neither `Gain` nor `Loss` is
      labelled a loss, yet gets the plain badge class, not the loss class. */
  lemma UnrecognisedChangeLooksLikeLoss(feature: Properties)
    requires ChangeTypeOf(feature) != Str("Gain") && ChangeTypeOf(feature) != Str("Loss")
    ensures BadgeLabel(Some(MangroveChange), ChangeTypeOf(feature)) == BadgeLabel(Some(MangroveChange), Str("Loss"))
    ensures BadgeClass(Some(MangroveChange), ChangeTypeOf(feature)) != BadgeClass(Some(MangroveChange), Str("Loss"))
  {
  }

  /** The entries whose key is not excluded, in entry order. */
  function Displayed(feature: Properties): (kept: Properties)
    ensures |kept| <= |feature|
    ensures forall e :: e in kept <==> e in feature && !IsKeyExcluded(e.0)
  {
    if feature == [] then []
    else
      var rest := Displayed(feature[1..]);
      assert forall e :: e in feature <==> e == feature[0] || e in feature[1..] by {
        assert feature == [feature[0]] + feature[1..];
      }
      if IsKeyExcluded(feature[0].0) then rest else [feature[0]] + rest
  }

  /** Filtering keeps the entries' relative order. */
  lemma {:induction false} DisplayedAppend(a: Properties, b: Properties)
    ensures Displayed(a + b) == Displayed(a) + Displayed(b)
  {
    if a != [] {
      assert (a + b)[1..] == a[1..] + b;
      DisplayedAppend(a[1..], b);
    } else {
      assert a + b == b;
    }
  }

  /** One row per displayed entry: the formatted key and value. */
  function PropertyRows(feature: Properties): (rows: seq<Row>)
    ensures |rows| == |Displayed(feature)|
    ensures forall i :: 0 <= i < |rows| ==>
      rows[i] == (FormatKey(Displayed(feature)[i].0), FormatValue(Displayed(feature)[i].1))
  {
    var kept := Displayed(feature);
    seq(|kept|, i requires 0 <= i < |kept| => (FormatKey(kept[i].0), FormatValue(kept[i].1)))
  }

  /** The carbon amount row: only on a carbon layer, and only when the
      feature has a `gridcode` at all (a `null` one shows as "N/A"). */
  function CarbonRow(layerType: Option<LayerType>, feature: Properties): (row: Option<Row>)
    ensures row.Some? <==> IsCarbonLayer(layerType) && Lookup(feature, "gridcode") != Undefined
    ensures row.Some? ==> row.value == ("Carbon Amount (tCO₂)", FormatValue(Lookup(feature, "gridcode")))
  {
    var gridcode := Lookup(feature, "gridcode");
    if IsCarbonLayer(layerType) && gridcode != Undefined then
      Some(("Carbon Amount (tCO₂)", FormatValue(gridcode)))
    else None
  }

  /** The badge, shown when the feature's layer type is known. */
  function BadgeFor(feature: Properties, layerType: Option<LayerType>): (b: Option<Badge>)
    ensures b.Some? <==> layerType.Some?
    ensures b.Some? ==> b.value.text == BadgeLabel(layerType, ChangeTypeOf(feature))
  {
    if layerType.Some? then
      var changeType := ChangeTypeOf(feature);
      Some(Badge(BadgeClass(layerType, changeType), BadgeLabel(layerType, changeType)))
    else None
  }

  /** The rows under the year row: the carbon row when it applies, then the
      property rows. */
  function DetailRows(feature: Properties, layerType: Option<LayerType>): (rows: seq<Row>)
    ensures |rows| == |PropertyRows(feature)| + (if CarbonRow(layerType, feature).Some? then 1 else 0)
    ensures CarbonRow(layerType, feature).Some? ==> rows[0] == CarbonRow(layerType, feature).value
    ensures rows[|rows| - |PropertyRows(feature)|..] == PropertyRows(feature)
  {
    var carbon := CarbonRow(layerType, feature);
    if carbon.Some? then [carbon.value] + PropertyRows(feature) else PropertyRows(feature)
  }

  /** The panel: the badge when there is a layer type, the year row, the
      carbon row when it applies, then the property rows. */
  function Render(feature: Properties, layerType: Option<LayerType>, year: int): (p: Panel)
    ensures p.badge.Some? <==> layerType.Some?
    ensures |p.rows| >= 1 && p.rows[0] == (YearLabel(layerType), YearValue(layerType, year))
    ensures p.rows[1..] == DetailRows(feature, layerType)
  {
    var rows := [(YearLabel(layerType), YearValue(layerType, year))] + DetailRows(feature, layerType);
    assert rows[1..] == DetailRows(feature, layerType);
    Panel(BadgeFor(feature, layerType), rows)
  }

  /** An excluded key never reaches the panel's property rows, and every
      other key does, formatted. */
  lemma RowsShowExactlyDisplayable(feature: Properties, key: string, v: PropertyValue)
    requires (key, v) in feature
    ensures IsKeyExcluded(key) ==> (key, v) !in Displayed(feature)
    ensures !IsKeyExcluded(key) ==> (FormatKey(key), FormatValue(v)) in PropertyRows(feature)
  {
    if !IsKeyExcluded(key) {
      var kept := Displayed(feature);
      var i :| 0 <= i < |kept| && kept[i] == (key, v);
      assert PropertyRows(feature)[i] == (FormatKey(key), FormatValue(v));
    }
  }
}
