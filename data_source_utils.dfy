/** Helpers over a list of data-source descriptors: choosing the URL for a
    year, looking a descriptor up by layer tag, listing ids, and re-pointing
    every descriptor at a year's data. */
module DataSourceUtils {
  import opened Wrappers
  import opened Types
  import opened DataUrlStrategies

  /** `getDataUrlForYear`: the table's strategy for the layer when it has
      one, otherwise the configured URL, otherwise the empty string. */
  function GetDataUrlForYear(layerType: LayerType, year: int, config: Option<DataSourceConfig>, baseUrl: string): (url: string)
    ensures layerType == Flood ==> url == FloodUrl(baseUrl, year)
    ensures layerType == Mangrove ==> url == MangroveUrl(baseUrl, year)
    ensures layerType == MangroveChange ==> url == MangroveChangeUrl(baseUrl, year)
    ensures TableStrategy(layerType).None? ==> url == (if config.Some? then config.value.dataUrl else "")
  {
    match TableStrategy(layerType)
    case Some(strategy) => UrlFor(strategy, baseUrl, year)
    case None => if config.Some? then UrlFor(DefaultStrategy(config.value), baseUrl, year) else ""
  }

  /** A layer outside the table is year-independent; a layer in it ignores
      the descriptor. */
  lemma UrlDependsOnYearOnlyForTable(layerType: LayerType, y1: int, y2: int, c1: Option<DataSourceConfig>, c2: Option<DataSourceConfig>, baseUrl: string)
    ensures TableStrategy(layerType).None? ==> GetDataUrlForYear(layerType, y1, c1, baseUrl) == GetDataUrlForYear(layerType, y2, c1, baseUrl)
    ensures TableStrategy(layerType).Some? ==> GetDataUrlForYear(layerType, y1, c1, baseUrl) == GetDataUrlForYear(layerType, y1, c2, baseUrl)
  {
  }

  /** For a table layer, two years share a URL only when they are the same year. */
  lemma UrlForYearInjective(layerType: LayerType, y1: int, y2: int, config: Option<DataSourceConfig>, baseUrl: string)
    requires TableStrategy(layerType).Some?
    requires GetDataUrlForYear(layerType, y1, config, baseUrl) == GetDataUrlForYear(layerType, y2, config, baseUrl)
    ensures y1 == y2
  {
    match layerType
    case Flood => FloodUrlInjective(baseUrl, y1, y2);
    case Mangrove => MangroveUrlInjective(baseUrl, y1, y2);
    case MangroveChange => MangroveChangeUrlInjective(baseUrl, y1, y2);
  }

  /** `sources.find(s => s.layerType === layerType)`: the first descriptor
      with that tag. */
  function GetDataSourceByLayerType(sources: seq<DataSourceConfig>, layerType: LayerType): (r: Option<DataSourceConfig>)
    ensures r.None? <==> forall i :: 0 <= i < |sources| ==> sources[i].layerType != layerType
    ensures r.Some? ==> exists i :: 0 <= i < |sources| && sources[i] == r.value && FirstOfType(sources, layerType, i)
  {
    if sources == [] then None
    else if sources[0].layerType == layerType then
      assert FirstOfType(sources, layerType, 0);
      Some(sources[0])
    else
      var r := GetDataSourceByLayerType(sources[1..], layerType);
      if r.Some? then
        var i :| 0 <= i < |sources[1..]| && sources[1..][i] == r.value && FirstOfType(sources[1..], layerType, i);
        assert FirstOfType(sources, layerType, i + 1);
        r
      else r
  }

  /** Position `i` holds the first descriptor with tag `layerType`. */
  predicate FirstOfType(sources: seq<DataSourceConfig>, layerType: LayerType, i: int) {
    0 <= i < |sources| && sources[i].layerType == layerType
    && forall j :: 0 <= j < i ==> sources[j].layerType != layerType
  }

  /** `sources.map(s => s.id)`. */
  function GetAllDataSourceIds(sources: seq<DataSourceConfig>): (ids: seq<string>)
    ensures |ids| == |sources|
    ensures forall i :: 0 <= i < |sources| ==> ids[i] == sources[i].id
  {
    seq(|sources|, i requires 0 <= i < |sources| => sources[i].id)
  }

  /** One descriptor re-pointed at the year's data. */
  function ForYear(source: DataSourceConfig, year: int, baseUrl: string): DataSourceConfig {
    source.(dataUrl := GetDataUrlForYear(source.layerType, year, Some(source), baseUrl))
  }

  /** `updateDataSourcesForYear`: every descriptor, in order, with its URL
      replaced by the one for the year and nothing else changed. */
  function UpdateDataSourcesForYear(sources: seq<DataSourceConfig>, year: int, baseUrl: string): (r: seq<DataSourceConfig>)
    ensures |r| == |sources|
    ensures forall i :: 0 <= i < |sources| ==>
      && r[i].id == sources[i].id && r[i].name == sources[i].name
      && r[i].layerType == sources[i].layerType && r[i].style == sources[i].style
    ensures forall i :: 0 <= i < |sources| ==>
      r[i].dataUrl == GetDataUrlForYear(sources[i].layerType, year, Some(sources[i]), baseUrl)
  {
    seq(|sources|, i requires 0 <= i < |sources| => ForYear(sources[i], year, baseUrl))
  }

  /** Updating for one year and then another is the same as updating for the
      second year only: a fallback URL is never overwritten, a yearly one is
      always rebuilt. */
  lemma UpdateForLatestYear(sources: seq<DataSourceConfig>, y1: int, y2: int, baseUrl: string)
    ensures UpdateDataSourcesForYear(UpdateDataSourcesForYear(sources, y1, baseUrl), y2, baseUrl)
         == UpdateDataSourcesForYear(sources, y2, baseUrl)
  {
    var once := UpdateDataSourcesForYear(sources, y1, baseUrl);
    var twice := UpdateDataSourcesForYear(once, y2, baseUrl);
    var direct := UpdateDataSourcesForYear(sources, y2, baseUrl);
    forall i | 0 <= i < |sources|
      ensures twice[i] == direct[i]
    {
      UrlDependsOnYearOnlyForTable(sources[i].layerType, y1, y2, Some(sources[i]), Some(once[i]), baseUrl);
    }
  }

  /** Updating keeps the id list. */
  lemma UpdateKeepsIds(sources: seq<DataSourceConfig>, year: int, baseUrl: string)
    ensures GetAllDataSourceIds(UpdateDataSourcesForYear(sources, year, baseUrl)) == GetAllDataSourceIds(sources)
  {
  }

  /** Looking a layer up after updating finds the updated form of the same
      descriptor. */
  lemma {:induction false} UpdateThenLookup(sources: seq<DataSourceConfig>, layerType: LayerType, year: int, baseUrl: string)
    ensures GetDataSourceByLayerType(UpdateDataSourcesForYear(sources, year, baseUrl), layerType)
         == (match GetDataSourceByLayerType(sources, layerType)
             case None => None
             case Some(s) => Some(ForYear(s, year, baseUrl)))
  {
    var updated := UpdateDataSourcesForYear(sources, year, baseUrl);
    if sources != [] {
      assert updated[1..] == UpdateDataSourcesForYear(sources[1..], year, baseUrl);
      UpdateThenLookup(sources[1..], layerType, year, baseUrl);
    }
  }
}
