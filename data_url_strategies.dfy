/** The per-layer rules that turn a year into the URL of that year's data
    file. The deployment base path (`import.meta.env.BASE_URL`) is a
    parameter. */
module DataUrlStrategies {
  import opened Wrappers
  import opened JsText
  import opened Types

  /** The strategies of the table, plus the fallback that keeps the
      configured URL whatever the year. */
  datatype UrlStrategy = FloodUrls | MangroveUrls | MangroveChangeUrls | ConfiguredUrl(dataUrl: string)

  /** The text of a year as a template literal writes it. */
  function YearText(year: int): string {
    IntToString(year)
  }

  function FloodUrl(baseUrl: string, year: int): string {
    baseUrl + "data/flood/Kakadu_FloodOnly_" + YearText(year) + ".geojson"
  }

  function MangroveUrl(baseUrl: string, year: int): string {
    baseUrl + "data/mangrove/mangrove_vector_" + YearText(year) + ".geojson"
  }

  /** The change file for the year names the span from the year before. */
  function MangroveChangeUrl(baseUrl: string, year: int): string {
    baseUrl + "data/mangrove-change/Mangrove_Change_" + YearText(year - 1) + "_" + YearText(year) + ".json"
  }

  /** Applying a strategy to a year. */
  function UrlFor(strategy: UrlStrategy, baseUrl: string, year: int): string {
    match strategy
    case FloodUrls => FloodUrl(baseUrl, year)
    case MangroveUrls => MangroveUrl(baseUrl, year)
    case MangroveChangeUrls => MangroveChangeUrl(baseUrl, year)
    case ConfiguredUrl(url) => url
  }

  /** `defaultUrlStrategy(config)`: the configured URL for every year. */
  function DefaultStrategy(config: DataSourceConfig): (s: UrlStrategy)
    ensures forall baseUrl, year :: UrlFor(s, baseUrl, year) == config.dataUrl
  {
    ConfiguredUrl(config.dataUrl)
  }

  /** `DATA_URL_STRATEGIES[layerType]`: only the yearly layers have an entry. */
  function TableStrategy(t: LayerType): Option<UrlStrategy> {
    match t
    case Flood => Some(FloodUrls)
    case Mangrove => Some(MangroveUrls)
    case MangroveChange => Some(MangroveChangeUrls)
    case _ => None
  }

  /** The table has exactly the three yearly layers, and what it holds for
      them depends on the year. */
  lemma TableEntries(t: LayerType)
    ensures TableStrategy(t).Some? <==> t == Flood || t == Mangrove || t == MangroveChange
    ensures TableStrategy(t).Some? ==> !TableStrategy(t).value.ConfiguredUrl?
  {
  }

  /** Cancelling a common prefix and suffix. */
  lemma CancelAround(p: string, a: string, b: string, q: string)
    requires p + a + q == p + b + q
    ensures a == b
  {
    var s := p + a + q;
    assert |a| == |b|;
    assert a == s[|p|..|p| + |a|];
    assert b == (p + b + q)[|p|..|p| + |b|];
  }

  /** Different years have different flood files. */
  lemma FloodUrlInjective(baseUrl: string, y1: int, y2: int)
    requires FloodUrl(baseUrl, y1) == FloodUrl(baseUrl, y2)
    ensures y1 == y2
  {
    var p := baseUrl + "data/flood/Kakadu_FloodOnly_";
    assert p + YearText(y1) + ".geojson" == p + YearText(y2) + ".geojson";
    CancelAround(p, YearText(y1), YearText(y2), ".geojson");
    IntToStringInjective(y1, y2);
  }

  /** Different years have different mangrove extent files. */
  lemma MangroveUrlInjective(baseUrl: string, y1: int, y2: int)
    requires MangroveUrl(baseUrl, y1) == MangroveUrl(baseUrl, y2)
    ensures y1 == y2
  {
    var p := baseUrl + "data/mangrove/mangrove_vector_";
    assert p + YearText(y1) + ".geojson" == p + YearText(y2) + ".geojson";
    CancelAround(p, YearText(y1), YearText(y2), ".geojson");
    IntToStringInjective(y1, y2);
  }

  lemma NoUnderscore(n: int)
    ensures '_' !in YearText(n)
  {
  }

  /** The `<year before>_<year>` part of a change file's name. */
  function Span(year: int): string {
    YearText(year - 1) + "_" + YearText(year)
  }

  lemma ChangeUrlShape(baseUrl: string, year: int)
    ensures MangroveChangeUrl(baseUrl, year) == baseUrl + "data/mangrove-change/Mangrove_Change_" + Span(year) + ".json"
  {
  }

  /** A span names its year: the part after the underscore. */
  lemma {:induction false} SpanInjective(y1: int, y2: int)
    requires Span(y1) == Span(y2)
    ensures y1 == y2
  {
    NoUnderscore(y1 - 1);
    NoUnderscore(y1);
    NoUnderscore(y2 - 1);
    NoUnderscore(y2);
    assert Span(y1) == Join([YearText(y1 - 1), YearText(y1)], '_');
    assert Span(y2) == Join([YearText(y2 - 1), YearText(y2)], '_');
    SplitJoin([YearText(y1 - 1), YearText(y1)], '_');
    SplitJoin([YearText(y2 - 1), YearText(y2)], '_');
    IntToStringInjective(y1, y2);
  }

  /** Different years have different change files. */
  lemma MangroveChangeUrlInjective(baseUrl: string, y1: int, y2: int)
    requires MangroveChangeUrl(baseUrl, y1) == MangroveChangeUrl(baseUrl, y2)
    ensures y1 == y2
  {
    ChangeUrlShape(baseUrl, y1);
    ChangeUrlShape(baseUrl, y2);
    CancelAround(baseUrl + "data/mangrove-change/Mangrove_Change_", Span(y1), Span(y2), ".json");
    SpanInjective(y1, y2);
  }

  /** The three yearly layers never share a file: their URLs differ in the
      directory right after the base path. */
  lemma YearlyUrlsDisjoint(baseUrl: string, y1: int, y2: int)
    ensures FloodUrl(baseUrl, y1) != MangroveUrl(baseUrl, y2)
    ensures FloodUrl(baseUrl, y1) != MangroveChangeUrl(baseUrl, y2)
    ensures MangroveUrl(baseUrl, y1) != MangroveChangeUrl(baseUrl, y2)
  {
    var n := |baseUrl|;
    assert FloodUrl(baseUrl, y1)[n + 5] == 'f';
    assert MangroveUrl(baseUrl, y2)[n + 5] == 'm';
    assert MangroveUrl(baseUrl, y1)[n + 5] == 'm';
    assert MangroveChangeUrl(baseUrl, y2)[n + 5] == 'm';
    assert MangroveUrl(baseUrl, y1)[n + 13] == '/';
    assert MangroveChangeUrl(baseUrl, y2)[n + 13] == '-';
  }
}
