# Kakadu Wetlands dashboard — a verified model of its map and data core

The dashboard shows wetland layers of Kakadu National Park on a map:
- flood extent, mangrove cover, mangrove gain and loss, and carbon stock;
- a time slider that chooses the year;
- a panel that describes a clicked feature;
- charts built from yearly statistics files.

This project models, in Dafny, the logic behind those views:
- **Data URLs and data sources.** The per-year file naming schemes, the data-source table, and the re-pointing of every source at a year.
- **Styling and legend.** How each layer type is painted, and its legend icon and colour.
- **Feature panel.** The key and value formatting, the excluded keys, the badge, and the year, carbon and property rows.
- **Statistics loading.** The CSV parser and the merge of several statistics tables into one row per year.
- **Time slider.** Its year labels and its year change.
- **Map engine.** An abstract store of sources, layers (visibility and filter), attached listeners and the record of calls made on it (`MapEngine.MapStore`). Over it run the source and layer helpers, the visibility strategies and the three hooks that drive the map:
  - the reload on a year change;
  - the visibility pass when the layer toggles change;
  - the click-handler registry.
- **App state.** The layer list and its toggles, and the selected feature.

Pure logic is modelled as functions with lemmas. Code that changes state in place is modelled as classes with methods, proved against those functions:
- the map store;
- the hooks' refs and state;
- the slider;
- the app state.

Each state-changing method states its new state as a specification function of the old one. The properties are proved about those functions.

## Model

| member | source | states |
|---|---|---|
| FormatHelpers.IsKeyExcluded | src/utils/formatHelpers.ts:14-31 | the definition: membership in the exclusion list. Its properties are stated by ExcludedKeysDistinct and ExclusionIsCaseSensitive |
| FormatHelpers.FormatKey | src/utils/formatHelpers.ts:42-59 | the definition of the key label. Its properties are stated by FormatKeySpecialCases, GeneralKey, FormatKeyNoSeparators, FormatKeyTrimmed, FormatKeyWordsCapitalized, FormatKeyCamelCase and FormatKeySnakeCase |
| FormatHelpers.FormatValue | src/utils/formatHelpers.ts:71-85 | the definition of the value text. Its properties are stated by FormatValueCases |
| FormatHelpers.ExcludedKeysDistinct | src/utils/formatHelpers.ts:15-29 | the exclusion list holds thirteen distinct keys |
| FormatHelpers.ExclusionIsCaseSensitive | src/utils/formatHelpers.ts:14-31 | membership is exact and case-sensitive: "Id" and "id" are excluded, "ID" and "Season " are not, "OBJECTID" is |
| FormatHelpers.FormatKeySpecialCases | src/utils/formatHelpers.ts:43-51 | "Ha", "ha", "area_ha" and "Area" read "Area (Ha)", and "ha_change" reads "Area of change (Ha)" |
| FormatHelpers.GeneralKey | src/utils/formatHelpers.ts:42-58 | any other key takes the general rewrite followed by the trim |
| FormatHelpers.CapitalsFollowSpace | src/utils/formatHelpers.ts:54 | after the first replacement every capital letter stands right after a space |
| FormatHelpers.SpaceBeforeCapitalsOnlyAddsSpaces | src/utils/formatHelpers.ts:54 | the first replacement only inserts spaces: with spaces removed the text is unchanged |
| FormatHelpers.RewriteKeyNoSeparators | src/utils/formatHelpers.ts:53-57 | the general rewrite leaves no underscore and no dash |
| FormatHelpers.FormatKeyNoSeparators | src/utils/formatHelpers.ts:53-58 | a general key's label contains no '_' and no '-' |
| FormatHelpers.FormatKeyTrimmed | src/utils/formatHelpers.ts:58 | a general key's label has no whitespace at either end |
| FormatHelpers.CapitalizeWordsStarts | src/utils/formatHelpers.ts:57 | the `\b\w` replacement leaves no word start in lower case and changes nothing else |
| FormatHelpers.TrimKeepsWordsCapitalized | src/utils/formatHelpers.ts:57-58 | trimming keeps every word start capitalised |
| FormatHelpers.FormatKeyWordsCapitalized | src/utils/formatHelpers.ts:53-58 | no maximal run of word characters in a general key's label starts with a lower-case letter |
| FormatHelpers.FormatKeyCamelCase | src/utils/formatHelpers.ts:37-38 | a two-word camelCase key such as "carbonLoss" reads "Carbon Loss" |
| FormatHelpers.FormatKeySnakeCase | src/utils/formatHelpers.ts:37-40 | a two-word snake_case key such as "flood_signal" reads "Flood Signal" |
| FormatHelpers.SpecialKeysHaveNoInnerCapital | src/utils/formatHelpers.ts:44-49 | the special keys have a capital only as their first letter, so a key with an inner capital is never special |
| FormatHelpers.FormatValueCases | src/utils/formatHelpers.ts:71-85 | null and undefined read "N/A", booleans "Yes"/"No", strings pass through, and an integer's text parses back to that integer |
| JsText.Trim | src/utils/formatHelpers.ts:58 | the result is the input with its leading and trailing whitespace cut off, and it starts and ends with a non-space |
| JsText.Split | src/utils/loadStatsData.ts:12-18 | splitting yields at least one part, and no part contains the separator |
| JsText.IntToString | src/utils/formatHelpers.ts:77 | the decimal text of an integer is non-empty and made of digits and a minus sign |
| JsText.JoinSplit | src/utils/loadStatsData.ts:12 | splitting on a separator and joining with it gives back the text |
| JsText.SplitJoin | src/utils/loadStatsData.ts:18 | joining parts that do not contain the separator and splitting again gives back the parts |
| JsText.SplitCount | src/utils/loadStatsData.ts:12 | a split yields one more part than there are separators |
| JsText.ParseIntToString | src/utils/formatHelpers.ts:77 | the decimal text of an integer parses back to that integer |
| JsText.IntToStringInjective | src/utils/formatHelpers.ts:77 | different integers have different decimal texts |
| Types.Lookup | src/components/bottom-sidebar/FeatureInfo.tsx:37 | a present key is found, with the value of its first entry; any value found is an entry of the feature; a missing key gives undefined |
| LoadStatsData.StripQuotes | src/utils/loadStatsData.ts:15 | removes one leading and one trailing double quote, if present, and nothing else |
| LoadStatsData.StripQuotesOfQuoted | src/utils/loadStatsData.ts:15 | a quoted word comes back unquoted |
| LoadStatsData.CleanCells | src/utils/loadStatsData.ts:18 | a line yields one cell per comma plus one |
| LoadStatsData.CellOf | src/utils/loadStatsData.ts:22-25 | the definition of a cell's value. Its properties are stated by CellOfCases |
| LoadStatsData.CellOfCases | src/utils/loadStatsData.ts:22-25 | a missing value stays missing, an integer's text becomes that number, and an empty text stays a string |
| LoadStatsData.RecordOf | src/utils/loadStatsData.ts:19-26 | a record has exactly the header keys |
| LoadStatsData.RecordValue | src/utils/loadStatsData.ts:21-25 | a header's value is the cell at its index; when a header is repeated, its last occurrence wins |
| LoadStatsData.RecordIgnoresSurplus | src/utils/loadStatsData.ts:21-26 | cells beyond the headers are ignored |
| LoadStatsData.BuildRecord | src/utils/loadStatsData.ts:19-28 | the `forEach` over the headers builds exactly the specified record |
| LoadStatsData.Lines | src/utils/loadStatsData.ts:12 | the trimmed text yields one line per newline plus one |
| LoadStatsData.ParsedRecords | src/utils/loadStatsData.ts:12-29 | one record per line after the header, so as many records as newlines in the trimmed text, each keyed by the headers |
| LoadStatsData.ParseCsv | src/utils/loadStatsData.ts:11-30 | the parser's loop yields the specified records |
| LoadStatsData.YearsOfTablesSpec | src/utils/loadStatsData.ts:51-58 | the collected years are distinct and are exactly the numeric `year` values of any table |
| LoadStatsData.CollectYears | src/utils/loadStatsData.ts:51-58 | the nested `forEach` adds each numeric year to the set once |
| LoadStatsData.SortYears | src/utils/loadStatsData.ts:61 | the default sort is a permutation |
| LoadStatsData.SortYearsSorted | src/utils/loadStatsData.ts:61 | distinct years come out ordered by their decimal text |
| LoadStatsData.SortedSameWidthAscending | src/utils/loadStatsData.ts:61 | for non-negative years of equal width the text order is the numeric order |
| LoadStatsData.SortIsNotNumeric | src/utils/loadStatsData.ts:61 | the default sort puts 1000 before 999 |
| LoadStatsData.FindYear | src/utils/loadStatsData.ts:70 | finds the first record whose year is the given year, and finds none exactly when no record has it |
| LoadStatsData.Column | src/utils/loadStatsData.ts:75 | a merged column is the prefix, '_' and the key |
| LoadStatsData.ColumnInjective | src/utils/loadStatsData.ts:75 | under one prefix, different keys give different columns |
| LoadStatsData.ColumnIsNotDate | src/utils/loadStatsData.ts:63-75 | no prefixed column can overwrite `date` |
| LoadStatsData.PrefixedColumnsCanCollide | src/utils/loadStatsData.ts:75 | two sources can still produce the same column ("mangrove" + "area_ha" and "mangrove_area" + "ha") |
| LoadStatsData.CopyColumns | src/utils/loadStatsData.ts:73-77 | copying a record's entries adds every key except `year`, prefixed, over the row |
| LoadStatsData.MergedRow | src/utils/loadStatsData.ts:62-84 | the definition of one merged row. Its properties are stated by MergedRowDate, MergedRowKeys and MergedRowValue |
| LoadStatsData.MergedRowDate | src/utils/loadStatsData.ts:63 | every merged row's `date` is the year's text |
| LoadStatsData.MergedRowKeys | src/utils/loadStatsData.ts:62-84 | a merged row has `date` plus exactly the prefixed columns of the sources in range that have the year |
| LoadStatsData.MergedRowValue | src/utils/loadStatsData.ts:65-81 | a column takes the value of the last source that writes it |
| LoadStatsData.BuildRow | src/utils/loadStatsData.ts:62-84 | the loop over the sources builds the specified merged row |
| LoadStatsData.BuildRows | src/utils/loadStatsData.ts:62-84 | the loop over the years builds one merged row per year, in order |
| LoadStatsData.MergedYearsSpec | src/utils/loadStatsData.ts:50-61 | the merged years are distinct, sorted as text, and are exactly the years found |
| LoadStatsData.Merge | src/utils/loadStatsData.ts:50-91 | the definition of the merged statistics. Its properties are stated by MergeFailure, MergeRows and MergedYearsSpec |
| LoadStatsData.MergeFailure | src/utils/loadStatsData.ts:35-91 | a failed fetch makes the whole result empty |
| LoadStatsData.MergeRows | src/utils/loadStatsData.ts:62-86 | there is one merged row per year, in year order |
| LoadStatsData.ParseAll | src/utils/loadStatsData.ts:45-48 | all texts are parsed when every fetch succeeded; otherwise there is nothing |
| LoadStatsData.LoadStats | src/utils/loadStatsData.ts:35-91 | the method computes the specified merge, or the empty result on failure |
| TimeSlider.SortDistinct | src/components/time-slider/TimeSlider.tsx:64 | deduplicating and sorting gives a strictly ascending list of the same years |
| TimeSlider.PushEverySecondYear | src/components/time-slider/TimeSlider.tsx:46-55 | the loop adds exactly the years strictly inside the range at an even distance from the start |
| TimeSlider.PushEveryYear | src/components/time-slider/TimeSlider.tsx:57-60 | the loop adds exactly the years strictly inside the range |
| TimeSlider.YearLabels | src/components/time-slider/TimeSlider.tsx:34-65 | labels are strictly ascending and are exactly the shown years for the width; they start at the minimum year and end at the maximum, lie within the range, are just the one year when the bounds agree, and are at most three on a narrow screen |
| TimeSlider.LabelFacts | src/components/time-slider/TimeSlider.tsx:37-64 | the same bounds, first, last and narrow-screen facts, for any list of the shown years |
| TimeSlider.NarrowAtMostThree | src/components/time-slider/TimeSlider.tsx:40-45 | below 480 pixels at most three labels are shown |
| TimeSlider.Slider.constructor | src/components/time-slider/TimeSlider.tsx:16-21 | the slider starts at the initial year and has forwarded nothing |
| TimeSlider.Slider.Default | src/components/time-slider/TimeSlider.tsx:13-21 | a slider mounted without year props starts at 2024, the last year of the default range 2014 to 2024, having forwarded nothing |
| TimeSlider.Slider.HandleYearChange | src/components/time-slider/TimeSlider.tsx:67-70 | the year becomes current and is forwarded exactly when a callback is given |
| DataUrlStrategies.FloodUrl | src/utils/data/dataUrlStrategies.ts:12-13 | the definition of the flood file URL. Its properties are stated by FloodUrlInjective and YearlyUrlsDisjoint |
| DataUrlStrategies.MangroveUrl | src/utils/data/dataUrlStrategies.ts:18-19 | the definition of the mangrove file URL. Its properties are stated by MangroveUrlInjective and YearlyUrlsDisjoint |
| DataUrlStrategies.MangroveChangeUrl | src/utils/data/dataUrlStrategies.ts:25-30 | the definition of the change file URL. Its properties are stated by ChangeUrlShape, MangroveChangeUrlInjective and YearlyUrlsDisjoint |
| DataUrlStrategies.DefaultStrategy | src/utils/data/dataUrlStrategies.ts:35-38 | the default strategy gives the configured URL for every year |
| DataUrlStrategies.TableEntries | src/utils/data/dataUrlStrategies.ts:43-49 | only flood, mangrove and mangrove-change have a year strategy, and none of them is the configured URL |
| DataUrlStrategies.FloodUrlInjective | src/utils/data/dataUrlStrategies.ts:12-13 | different years give different flood file URLs |
| DataUrlStrategies.MangroveUrlInjective | src/utils/data/dataUrlStrategies.ts:18-19 | different years give different mangrove file URLs |
| DataUrlStrategies.ChangeUrlShape | src/utils/data/dataUrlStrategies.ts:25-30 | the change file is named by the previous year, '_' and the year |
| DataUrlStrategies.SpanInjective | src/utils/data/dataUrlStrategies.ts:26-29 | the "previous_year" span determines the year |
| DataUrlStrategies.MangroveChangeUrlInjective | src/utils/data/dataUrlStrategies.ts:25-30 | different years give different change file URLs |
| DataUrlStrategies.YearlyUrlsDisjoint | src/utils/data/dataUrlStrategies.ts:12-30 | no flood, mangrove or change URL equals one of another kind, for any two years |
| DataSourceUtils.GetDataUrlForYear | src/utils/dataSourceUtils.ts:11-20 | the table strategy for flood, mangrove and mangrove-change; otherwise the configured URL, or "" without a configuration |
| DataSourceUtils.UrlDependsOnYearOnlyForTable | src/utils/dataSourceUtils.ts:16-19 | without a table strategy the URL ignores the year; with one it ignores the configuration |
| DataSourceUtils.UrlForYearInjective | src/utils/dataSourceUtils.ts:11-20 | with a table strategy, different years give different URLs |
| DataSourceUtils.GetDataSourceByLayerType | src/utils/dataSourceUtils.ts:25-30 | the first source with the tag, and none exactly when no source has it |
| DataSourceUtils.GetAllDataSourceIds | src/utils/dataSourceUtils.ts:35-37 | the ids, one per source, in order |
| DataSourceUtils.UpdateDataSourcesForYear | src/utils/dataSourceUtils.ts:42-50 | the same sources in order, every field kept but the URL, which is the year's URL |
| DataSourceUtils.UpdateForLatestYear | src/utils/dataSourceUtils.ts:42-50 | re-pointing twice equals re-pointing once at the later year |
| DataSourceUtils.UpdateKeepsIds | src/utils/dataSourceUtils.ts:42-50 | re-pointing keeps the id list |
| DataSourceUtils.UpdateThenLookup | src/utils/dataSourceUtils.ts:25-50 | looking up a tag after re-pointing gives the re-pointed first source with that tag |
| DataSources.GetDataSourceByLayerType | src/config/dataSources.ts:90-94 | a found source is in the table and has the tag, and there is none exactly when no entry has it |
| DataSources.GetAllDataSourceIds | src/config/dataSources.ts:97-99 | one id per table entry, in order |
| DataSources.TableKeysDistinct | src/config/dataSources.ts:21-87 | the table's ids and tags are distinct |
| DataSources.ConfiguredLayers | src/config/dataSources.ts:21-94 | only gain, loss and mangrove are configured, each at fill opacity 0.4 |
| DataSources.AllIds | src/config/dataSources.ts:21-99 | the ids are "mangrove-gain", "mangrove-loss" and "mangrove" |
| MapStyleStrategies.DefaultStyle | src/utils/map/mapStyleStrategies.ts:17-22 | the configured colours, opacity and width, defaulting to #808080, #606060, 0.5 and 1.5 |
| MapStyleStrategies.StrategyFor | src/utils/map/mapStyleStrategies.ts:113-124 | the default strategy exactly for the tags outside mangrove-change and the three carbon ones |
| MapStyleStrategies.GetLayerStyleStrategy | src/utils/map/mapStyleStrategies.ts:125-130 | the default style for other tags, the fixed change style for mangrove-change, and a gridcode ramp for carbon |
| MapStyleStrategies.CarbonFamilyStyles | src/utils/map/mapStyleStrategies.ts:53-108 | every carbon style is a valid ramp from 0 to 100 at opacity 1 and line width 0.5, with the configured line colour if any |
| MapStyleStrategies.RampWellFormed | src/utils/map/mapStyleStrategies.ts:56-64 | the ramp's stops ascend, with alpha rising from 0 |
| MapStyleStrategies.MangroveChangeIgnoresConfig | src/utils/map/mapStyleStrategies.ts:27-48 | the change style does not depend on the configuration |
| MapStyleStrategies.MatchColor | src/utils/map/mapStyleStrategies.ts:29-46 | `Gain` gives the gain colour, `Loss` the loss colour, anything else the fallback |
| MapStyleStrategies.ChangeTypesDistinguishable | src/utils/map/mapStyleStrategies.ts:29-46 | gain and loss features are painted differently, in fill and in line |
| LayerHelpers.LayerIcon | src/utils/layerHelpers.ts:6-25 | the pin exactly for layer types without their own legend entry |
| LayerHelpers.LegendColor | src/utils/layerHelpers.ts:30-49 | a seven-character '#' colour, grey for the types without their own entry |
| LayerHelpers.LegendDistinct | src/utils/layerHelpers.ts:6-49 | the listed types have distinct icons and distinct non-grey colours |
| LayerHelpers.GoldHex | src/utils/layerHelpers.ts:41 | the carbon ramp colour (255, 215, 0) is #FFD700 |
| LayerHelpers.ChartreuseHex | src/utils/layerHelpers.ts:43 | the carbon gain ramp colour (127, 255, 0) is #7FFF00 |
| LayerHelpers.DeepPinkHex | src/utils/layerHelpers.ts:45 | the carbon loss ramp colour (255, 20, 147) is #FF1493 |
| LayerHelpers.ChangeLegendMatchesFill | src/utils/layerHelpers.ts:32-35 | the gain and loss legend colours are the change layer's fill colours for those change types |
| LayerHelpers.CarbonLegendMatchesStyle | src/utils/layerHelpers.ts:40-45 | each carbon legend colour is the colour of its ramp and of its default line |
| FeatureInfo.YearValue | src/components/bottom-sidebar/FeatureInfo.tsx:23-34 | the definition of the year row's value. Its properties are stated by YearValueReadsBack |
| FeatureInfo.YearLabel | src/components/bottom-sidebar/FeatureInfo.tsx:23-34 | "Period" for mangrove-change and the carbon change layers, otherwise "Year" |
| FeatureInfo.YearValueReadsBack | src/components/bottom-sidebar/FeatureInfo.tsx:24-34 | the change layers' period reads back as the previous year and the year; the carbon period is fixed; any other layer shows the year's text |
| FeatureInfo.BadgeClass | src/components/bottom-sidebar/FeatureInfo.tsx:43-64 | the gain or loss class for those change types, the plain class for any other change type or any other tag |
| FeatureInfo.BadgeClassNamesLayer | src/components/bottom-sidebar/FeatureInfo.tsx:50-61 | for mangrove, flood and the carbon layers the class ends in the layer's own tag |
| FeatureInfo.BadgeLabel | src/components/bottom-sidebar/FeatureInfo.tsx:37-66 | "Mangrove gain" exactly for `Gain`, "Mangrove loss" otherwise, the formatted tag for other layers |
| FeatureInfo.UnrecognisedChangeLooksLikeLoss | src/components/bottom-sidebar/FeatureInfo.tsx:38-47 | a change type that is neither `Gain` nor `Loss` is labelled a loss but does not get the loss class |
| FeatureInfo.Displayed | src/components/bottom-sidebar/FeatureInfo.tsx:85-86 | keeps exactly the entries whose key is not excluded |
| FeatureInfo.DisplayedAppend | src/components/bottom-sidebar/FeatureInfo.tsx:85-86 | the filter keeps the entries' order |
| FeatureInfo.PropertyRows | src/components/bottom-sidebar/FeatureInfo.tsx:85-93 | one row per displayed entry: its formatted key and value |
| FeatureInfo.CarbonRow | src/components/bottom-sidebar/FeatureInfo.tsx:69-84 | the carbon row exists exactly on a carbon layer whose feature has a `gridcode` |
| FeatureInfo.BadgeFor | src/components/bottom-sidebar/FeatureInfo.tsx:74 | a badge exactly when the layer type is known |
| FeatureInfo.DetailRows | src/components/bottom-sidebar/FeatureInfo.tsx:79-93 | the carbon row when it applies, then the property rows |
| FeatureInfo.Render | src/components/bottom-sidebar/FeatureInfo.tsx:72-95 | the badge iff a layer type, then the year row, then the detail rows |
| FeatureInfo.RowsShowExactlyDisplayable | src/components/bottom-sidebar/FeatureInfo.tsx:85-93 | an excluded key never shows; every other entry shows, formatted |
| App.ToggleLayer | src/App.tsx:37-43 | the same list, with the flag of every layer with that id flipped and the others untouched |
| App.ToggleTwice | src/App.tsx:37-43 | toggling twice restores the list |
| App.TogglesCommute | src/App.tsx:37-43 | toggles of two ids commute |
| App.ToggleKeepsIdentity | src/App.tsx:37-43 | toggling keeps each layer's id, name and type |
| App.InitialToggleFlipsOne | src/App.tsx:13-43 | the initial layers all start hidden, and toggling one of them shows it and leaves every other layer as it was |
| App.AppState.constructor | src/App.tsx:13-35 | the initial layer list, the sidebar closed and no selection |
| App.AppState.HandleToggleLayer | src/App.tsx:37-43 | the layers become their toggled list and nothing else changes |
| App.AppState.HandleFeatureClick | src/App.tsx:45-50 | the feature is selected and the sidebar opened, and the layers are kept |
| MapLayerUtils.DerivedIdsDistinct | src/utils/mapLayerUtils.ts:53-99 | fill, line and source ids never collide, and each determines its data source id |
| MapLayerUtils.AddSourceNeverOverwrites | src/utils/mapLayerUtils.ts:27-42 | an existing source is kept and reported as not added; otherwise a GeoJSON source with the data is added |
| MapLayerUtils.AddMapSource | src/utils/mapLayerUtils.ts:27-42 | the store and result are the specified ones, with one `addSource` call exactly when added |
| MapLayerUtils.AddLayersAllOrNothing | src/utils/mapLayerUtils.ts:47-91 | both layers are added, with the configured paint and the given visibility, when neither exists; otherwise nothing changes |
| MapLayerUtils.AddMapLayers | src/utils/mapLayerUtils.ts:47-91 | the specified store, with the fill added before the line |
| MapLayerUtils.RemoveLayersResult | src/utils/mapLayerUtils.ts:96-110 | the three entries are gone and the rest is kept; removing again changes nothing and makes no call; the source is removed after the layers |
| MapLayerUtils.RemoveMapLayers | src/utils/mapLayerUtils.ts:96-110 | the specified store, with calls only for the entries that existed, layers first |
| MapLayerUtils.VisibilityResult | src/utils/mapLayerUtils.ts:115-129 | existing fill and line layers get the visibility; nothing else changes, and missing layers are skipped |
| MapLayerUtils.UpdateLayerVisibility | src/utils/mapLayerUtils.ts:115-129 | the specified store, with one call per existing layer |
| MapLayerUtils.FilterResult | src/utils/map/mapVisibilityStrategies.ts:65-79 | existing fill and line layers get the change-type filter; nothing else changes |
| MapLayerUtils.ApplyLayerFilter | src/utils/map/mapVisibilityStrategies.ts:65-79 | the specified store, with one `setFilter` call per existing layer, fill first, and no other call |
| MapLayerUtils.UpdateSourceResult | src/utils/mapLayerUtils.ts:134-145 | a GeoJSON source gets the data and the result is true; otherwise nothing changes and the result is false |
| MapLayerUtils.UpdateSourceData | src/utils/mapLayerUtils.ts:134-145 | the specified store and result, with one `setData` call exactly when the source was updated |
| MapLayerUtils.GetLayerVisibility | src/utils/mapLayerUtils.ts:150-156 | visible exactly when the first UI layer of the type is on; hidden when there is none |
| MapVisibilityStrategies.GetVisibilityStrategy | src/utils/map/mapVisibilityStrategies.ts:88-102 | the shared strategy exactly for gain and loss |
| MapVisibilityStrategies.ApplyStrategy | src/utils/map/mapVisibilityStrategies.ts:18-83 | the store after the strategy's calls |
| MapVisibilityStrategies.DefaultSpec | src/utils/map/mapVisibilityStrategies.ts:18-24 | the definition of the default strategy's effect. Its properties are stated by DefaultResult |
| MapVisibilityStrategies.SharedSpec | src/utils/map/mapVisibilityStrategies.ts:54-83 | the definition of the shared change strategy's effect. Its properties are stated by SharedTruthTable, ToggleNeverHidesOther and SharedIgnoresItsArguments |
| MapVisibilityStrategies.DefaultResult | src/utils/map/mapVisibilityStrategies.ts:18-24 | the source's own layers are shown iff the flag is on, filters kept; nothing else changes |
| MapVisibilityStrategies.SharedTruthTable | src/utils/map/mapVisibilityStrategies.ts:54-83 | the change layers are shown iff gain or loss is on, filtered to the change types that are on, and keep their filter when hidden; nothing else changes |
| MapVisibilityStrategies.ToggleNeverHidesOther | src/utils/map/mapVisibilityStrategies.ts:54-83 | while a toggle is on, its features are shown; with one toggle on, the other's features are filtered out; other change types never show while the layers are shown |
| MapVisibilityStrategies.SharedIgnoresItsArguments | src/utils/map/mapVisibilityStrategies.ts:54-83 | the shared strategy ignores the id and flag it is called with, and is idempotent |
| UseLayerVisibility.StatesAfterDomain | src/hooks/useLayerVisibility.ts:36-39 | the table has an entry for exactly the types present in the list |
| UseLayerVisibility.StatesAfterLast | src/hooks/useLayerVisibility.ts:36-39 | a type's entry is the flag of its last layer in the list |
| UseLayerVisibility.BuildLayerStates | src/hooks/useLayerVisibility.ts:36-39 | the loop builds the specified table |
| UseLayerVisibility.StatesSwap | src/hooks/useLayerVisibility.ts:36-39 | swapping adjacent layers of different types leaves the table unchanged |
| UseLayerVisibility.DataSourceIdFor | src/hooks/useLayerVisibility.ts:43-58 | gain and loss use the shared change source; any other layer uses the first configured source of its type, or none |
| UseLayerVisibility.Pass | src/hooks/useLayerVisibility.ts:43-61 | the definition of the pass over the layers. Its properties are stated by PassAppend, GainLossStepsCommute and NoSourceNoChange |
| UseLayerVisibility.EffectSpec | src/hooks/useLayerVisibility.ts:29-68 | the definition of the effect. Its properties are stated by GainLossOrderIrrelevant |
| UseLayerVisibility.PassAppend | src/hooks/useLayerVisibility.ts:43-61 | the pass over two lists is the pass over the first, then the second |
| UseLayerVisibility.GainLossStepsCommute | src/hooks/useLayerVisibility.ts:43-61 | a gain step and a loss step commute |
| UseLayerVisibility.GainLossOrderIrrelevant | src/hooks/useLayerVisibility.ts:29-68 | the final map does not depend on whether gain or loss comes first in the list |
| UseLayerVisibility.NoSourceNoChange | src/hooks/useLayerVisibility.ts:52-55 | a layer with no configured source changes nothing |
| UseLayerVisibility.Effect | src/hooks/useLayerVisibility.ts:29-68 | nothing before the map is ready and the data loaded; otherwise the pass over every layer, with the full table |
| UseLayerDataUpdate.ReconcileSpec | src/hooks/useLayerDataUpdate.ts:58-98 | the definition of one source's turn. Its properties are stated by ReconcileOutcome, ReconcileFrame and ReconcileLocal |
| UseLayerDataUpdate.ReconcileAll | src/hooks/useLayerDataUpdate.ts:53-99 | the definition of the loop over all sources. Its properties are stated by ReconcileAllUntouched, ReconcileAllIsolated and ReconcileAllOutcome |
| UseLayerDataUpdate.ReconcileSource | src/hooks/useLayerDataUpdate.ts:53-98 | one source's turn yields the specified store |
| UseLayerDataUpdate.ReconcileOutcome | src/hooks/useLayerDataUpdate.ts:58-98 | no data or an error removes the source and its layers. Data keeps or creates the source, with the new data unless the existing source is not GeoJSON. An updated source keeps the layers. A newly created source gets both layers, shown as its UI layer is, when neither exists. When the update fails and a fill or line layer already exists, no layer changes |
| UseLayerDataUpdate.ReconcileFrame | src/hooks/useLayerDataUpdate.ts:53-98 | a turn changes only its own source, fill and line entries |
| UseLayerDataUpdate.ReconcileLocal | src/hooks/useLayerDataUpdate.ts:53-98 | a turn's effect on its own entries depends only on those entries |
| UseLayerDataUpdate.OtherSourceUntouched | src/hooks/useLayerDataUpdate.ts:54-56 | a change confined to one source leaves every other source's entries alone |
| UseLayerDataUpdate.ReconcileAllUntouched | src/hooks/useLayerDataUpdate.ts:53-99 | a source not in the list is left alone by the loop |
| UseLayerDataUpdate.ReconcileAllIsolated | src/hooks/useLayerDataUpdate.ts:53-99 | with distinct ids, each source ends as after its own turn alone, whatever the order and the other outcomes |
| UseLayerDataUpdate.ReconcileAllOutcome | src/hooks/useLayerDataUpdate.ts:53-99 | at the end, a source without data has no source and no layers, and one with data has a source |
| UseLayerDataUpdate.ReconcileLoop | src/hooks/useLayerDataUpdate.ts:53-99 | the loop yields the specified store |
| UseLayerDataUpdate.RunOncePerYear | src/hooks/useLayerDataUpdate.ts:39-43 | a second run for the same year is skipped; the first run, or a new year, is not, once the map is ready |
| UseLayerDataUpdate.LayerDataUpdate.constructor | src/hooks/useLayerDataUpdate.ts:33-34 | no year loaded, data not loaded |
| UseLayerDataUpdate.LayerDataUpdate.Effect | src/hooks/useLayerDataUpdate.ts:36-113 | skipped before the map is ready or for the same year. Otherwise `dataLoaded` is set false, then true after all sources are reconciled, and the year is remembered |
| UseLayerDataUpdate.YearReloadIsolated | src/hooks/useLayerDataUpdate.ts:45-99 | after re-pointing at a year, each source still ends as after its own turn |
| UseLayerDataUpdate.TableReloadOutcome | src/hooks/useLayerDataUpdate.ts:45-99 | for the configured table at any year, a source without data ends with no source and layers, and one with data has a source |
| UseLayerClickHandlers.NewHandlers | src/hooks/useLayerClickHandlers.ts:44-59 | three new listeners on the fill layer (click, enter, leave); the click reports the source's layer type |
| UseLayerClickHandlers.ApplyAttachCalls | src/hooks/useLayerClickHandlers.ts:61-69 | detaching then attaching leaves exactly the three handlers added, with no duplicate |
| UseLayerClickHandlers.AttachAll | src/hooks/useLayerClickHandlers.ts:39-90 | the definition of the attach loop. Its properties are stated by AttachAllEntries, NoDoubleRegistration and AttachAllOffBeforeOn |
| UseLayerClickHandlers.AttachAllEntries | src/hooks/useLayerClickHandlers.ts:39-90 | existing entries are kept as they are; new entries are exactly the configured ids whose fill layer exists |
| UseLayerClickHandlers.NoDoubleRegistration | src/hooks/useLayerClickHandlers.ts:43-86 | a second run over the same layers attaches nothing |
| UseLayerClickHandlers.AttachAllOffBeforeOn | src/hooks/useLayerClickHandlers.ts:61-69 | every `on` is preceded by an `off` of the same listener |
| UseLayerClickHandlers.EffectKeys | src/hooks/useLayerClickHandlers.ts:39-105 | after the effect the registry holds exactly the old or configured ids whose fill layer exists |
| UseLayerClickHandlers.Prune | src/hooks/useLayerClickHandlers.ts:93-105 | the definition of the stale-entry removal. Its properties are stated by EffectKeys |
| UseLayerClickHandlers.RunCleanup | src/hooks/useLayerClickHandlers.ts:72-84 | the three handlers are detached if the fill layer exists; otherwise nothing |
| UseLayerClickHandlers.ClickHandlers.AttachOne | src/hooks/useLayerClickHandlers.ts:40-89 | one turn of the attach loop, as specified |
| UseLayerClickHandlers.ClickHandlers.AttachHandlers | src/hooks/useLayerClickHandlers.ts:39-90 | the attach loop yields the specified registry, calls and listeners |
| UseLayerClickHandlers.ClickHandlers.PruneStale | src/hooks/useLayerClickHandlers.ts:93-105 | entries whose fill layer is gone are deleted, and no call is made |
| UseLayerClickHandlers.ClickHandlers.Effect | src/hooks/useLayerClickHandlers.ts:31-105 | nothing without loaded data and a callback; otherwise attach, then prune |
| UseLayerClickHandlers.ClickHandlers.Teardown | src/hooks/useLayerClickHandlers.ts:108-113 | every cleanup runs (detaching the handlers of existing fill layers and only those) and the registry is emptied |

## Left out

- HTTP fetching (`fetchGeoJSONData`, the statistics fetches) is not modelled. Fetch results are inputs: a map from URL to outcome for the reload, and an optional text per statistics file.
- Asynchrony is not modelled. The reload loop runs to completion in one step. In the program the year is remembered before the loop finishes, so a quick second year change can interleave with it.
- React scheduling, JSX rendering, dependency arrays, timers and the window resize listener are left out.
- Engine internals are left out: rendering, `queryRenderedFeatures`, the canvas cursor, and the identity semantics of event handlers. Listeners are values with a fresh token per closure.
- The engine's exceptions for a missing source or layer are not modelled. The store's primitives require what the helpers check beforehand.
- `setupLayerClickHandlers` (src/utils/mapLayerUtils.ts:161-198) is not modelled; the hook does the same work inline.
- The evaluation of the engine's `interpolate` and `match` expressions is left out. Paint is kept as data; its stops and colours are checked.
- Floating point is left out:
  - `toFixed(2)` for non-integral values;
  - `parseFloat`'s prefix parsing (cells are integers or text);
  - the slider's position arithmetic;
  - opacities and widths, which are kept as exact reals.
- FormatHelpers.FormatValue: non-integral numbers and objects (`JSON.stringify`) are not modelled; values are undefined, null, booleans, integers and strings. The decimal text matches JavaScript only for integers of magnitude below 1e21: JavaScript prints larger ones in exponent form ("1e+21"), while `JsText.IntToString` prints every digit.
- LayerHelpers.LayerIcon: the icons are named values rather than the emoji literals, whose bytes are mis-encoded in the source.
- `applyLayerFilter` is called by the shared visibility strategy but is not defined in the source. MapLayerUtils.ApplyLayerFilter gives it the evident meaning: a `change_type` filter on the source's existing fill and line layers.
- `DATA_SOURCES_CONFIG` is not defined in the source. The visibility and click-handler hooks take the configuration list as a parameter.
- The reload calls a one-argument `updateDataSourcesForYear`. It is modelled as DataSourceUtils.UpdateDataSourcesForYear applied to a list, with the build's base URL as a parameter. UseLayerDataUpdate.TableReloadOutcome instantiates it with the configured table.
- UseLayerClickHandlers.ClickHandlers.Teardown: the registry is a map, so the order in which the cleanups run (the program uses insertion order) is not stated. The resulting listeners are.
- LoadStatsData.LoadStats: the order of a record's entries (`Object.entries`) is not modelled. A column written twice keeps the last source's value.
- Strings compare by code unit in the program. Only ASCII digits occur in the sorted texts, so comparing by character is the same.
- The legend's mangrove colour (#8B4513) differs from the configured mangrove fill (#0000ff). This is stated by the constants, not proved as a property.
- The `metadata` object of each data-source descriptor (description, year, source) is not modelled. The spread in `updateDataSourcesForYear` would carry it unchanged.
