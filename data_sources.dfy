/** The configured data sources of the map and the lookups over them. */
module DataSources {
  import opened Wrappers
  import opened Types
  import DataSourceUtils

  /** The paint shared by the configured sources, in the given colours. */
  function Paint(fill: string, line: string): StyleSpec {
    StyleSpec(Some(fill), Some(0.4), Some(line), Some(2.0))
  }

  /** `DATA_SOURCES`: gain, loss and mangrove extent, in that order. */
  const DataSourcesTable: seq<DataSourceConfig> := [
    DataSourceConfig("mangrove-gain", "Mangrove Gain", Gain, "/data/TestGain.geojson", Paint("#00ff00", "#00aa00")),
    DataSourceConfig("mangrove-loss", "Mangrove Loss", Loss, "/data/TestLoss.geojson", Paint("#ff0000", "#aa0000")),
    DataSourceConfig("mangrove", "Mangrove", Mangrove, "/data/TestMangrove.geojson", Paint("#0000ff", "#0000aa"))
  ]

  /** `getDataSourceByLayerType`: the first configured source with the tag. */
  function GetDataSourceByLayerType(layerType: LayerType): (r: Option<DataSourceConfig>)
    ensures r.Some? ==> r.value in DataSourcesTable && r.value.layerType == layerType
    ensures r.None? <==> forall s :: s in DataSourcesTable ==> s.layerType != layerType
  {
    DataSourceUtils.GetDataSourceByLayerType(DataSourcesTable, layerType)
  }

  /** `getAllDataSourceIds`: the ids in table order. */
  function GetAllDataSourceIds(): (ids: seq<string>)
    ensures |ids| == |DataSourcesTable|
    ensures forall i :: 0 <= i < |ids| ==> ids[i] == DataSourcesTable[i].id
  {
    DataSourceUtils.GetAllDataSourceIds(DataSourcesTable)
  }

  /** Ids and tags are unique in the table, so a lookup by either is
      unambiguous. */
  lemma TableKeysDistinct()
    ensures forall i, j :: 0 <= i < j < |DataSourcesTable| ==> DataSourcesTable[i].id != DataSourcesTable[j].id
    ensures forall i, j :: 0 <= i < j < |DataSourcesTable| ==> DataSourcesTable[i].layerType != DataSourcesTable[j].layerType
  {
    assert DataSourcesTable[0].id[9] == 'g' && DataSourcesTable[1].id[9] == 'l';
    assert |DataSourcesTable[2].id| == 8 < |DataSourcesTable[0].id|;
  }

  /** Exactly gain, loss and mangrove have a configured source. */
  lemma ConfiguredLayers(layerType: LayerType)
    ensures GetDataSourceByLayerType(layerType).Some? <==> layerType in {Gain, Loss, Mangrove}
    ensures layerType in {Gain, Loss, Mangrove} ==> GetDataSourceByLayerType(layerType).value.style.fillOpacity == Some(0.4)
  {
    if layerType in {Gain, Loss, Mangrove} {
      var r := GetDataSourceByLayerType(layerType);
      assert r.Some?;
    }
  }

  /** The ids, spelled out. */
  lemma AllIds()
    ensures GetAllDataSourceIds() == ["mangrove-gain", "mangrove-loss", "mangrove"]
  {
  }
}
