# Market interest dashboards in Dafny

This project models the data core of two browser dashboards that read a CSV
of vehicle auctions. Each row has a quarter, a manufacturer, a model, a
market-interest score (MII) and a price.

- **The OHLC terminal** (`dashboard.js`):
  - validates the rows and groups them by quarter;
  - builds open/high/low/close/volume bars for the whole market and for
    each manufacturer, each bar opening at the previous bar's close;
  - derives a summary per manufacturer from its latest bar;
  - lays the bars out on a candlestick chart;
  - answers cursor hit-tests with a tooltip;
  - filters and sorts the manufacturer grid and looks up branding badges.
- **The leaderboard** (`app.js`):
  - validates the rows the same way, but requires a model name;
  - for every quarter builds a list of manufacturer entries, each with a
    rounded mean score, a rounded mean price, a confidence tier by auction
    count, a trend against the previous quarter, a short score history and
    per-model aggregates;
  - adds a year-to-date ("YTD") list and marks the latest quarter
    quarter-to-date (`-QTD`);
  - serves that data to the grid, the top-models list, the market summary,
    the compare list and the trend labels.

Modules:

| file | module | content |
|---|---|---|
| `wrappers.dfy` | `Wrappers` | `Option` and `Result` |
| `text.dfy` | `Text` | string order, ASCII case mapping, `indexOf`/`includes`/`replace` |
| `stats.dfy` | `Stats` | sum, mean, min, max, percent change, `Math.round`, `toFixed(1)` |
| `sorting.dfy` | `Sorting` | stable sort, filter, `slice`, `map`, totals |
| `records.dfy` | `Records` | row validation, grouping, the sorted quarter list |
| `ohlc.dfy` | `Ohlc` | `processOHLCData` |
| `layout.dfy` | `Chart` | the layout arithmetic of `drawCandlestickChart` |
| `hittest.dfy` | `HitTest` | the mouse-move handler of `setupChartTooltip` |
| `dashboard.dfy` | `Dashboard` | the terminal's grid and `getBranding` |
| `leaderboard.dfy` | `Board` | `processCSVData` |
| `selectors.dfy` | `Selectors` | the leaderboard's grid, top models, market stats, compare list, labels |

Conventions:

- JavaScript numbers are exact reals, and `NaN` is `None`.
- `parseFloat` is a parameter `parse: string -> Option<real>`.
- The current year (`new Date().getFullYear()`) is a parameter `year`.
- A missing CSV cell is the empty string.
- Every `Array.prototype.sort` is a stable insertion sort on a key.

## Model

| member | source | states |
|---|---|---|
| Stats.MeanBetweenMinAndMax | dashboard.js:109-112 | `avg` of a non-empty array lies between its minimum and its maximum |
| Stats.MeanOfConstant | dashboard.js:109-112 | `avg` of an array whose elements all equal c is c |
| Stats.Max | dashboard.js:142 | `Math.max(...scores)` is one of the scores and no score exceeds it |
| Stats.Min | dashboard.js:143 | `Math.min(...scores)` is one of the scores and no score is below it |
| Stats.OptMean | dashboard.js:146 | the mean price is `NaN` exactly when some price is `NaN` |
| Stats.PercentChange | dashboard.js:188-192 | the change is 0 unless the previous close is positive; otherwise its sign is the direction of the move, and applying it to the previous close gives the current close back |
| Stats.RoundHalfUp | app.js:259 | `Math.round` is within one half of its argument |
| Stats.RoundTenth | app.js:260 | a non-negative value y rounds to a multiple of 0.1 in the half-open interval (y - 0.05, y + 0.05], so a half rounds up |
| Stats.ToFixed1 | app.js:260 | `parseFloat(x.toFixed(1))` is a multiple of 0.1 with the sign of x, in (x - 0.05, x + 0.05] for x >= 0 and in [x - 0.05, x + 0.05) for x < 0, so halves round away from zero |
| Text.StrLtIrreflexive | app.js:139 | no quarter label sorts before itself |
| Text.StrLtTransitive | app.js:139 | the default `.sort()` string order is transitive |
| Text.StrLtTotal | app.js:139 | any two distinct labels are ordered one way or the other |
| Text.StrLtAsymmetric | app.js:139 | two labels never sort before each other |
| Text.StrLeTransitive | dashboard.js:516 | the name order of the grid is transitive |
| Text.StrLeTotal | dashboard.js:516 | the name order of the grid compares any two names |
| Text.StrLtExtension | app.js:144 | a quarter sorts strictly before the same quarter with `-QTD` appended |
| Text.LowerFolds | app.js:577 | a lower-cased string has no ASCII capital, lower-casing again changes nothing, and strings that differ only in ASCII case lower-case alike |
| Text.UpperFolds | dashboard.js:37 | an upper-cased string has no ASCII small letter, upper-casing again changes nothing, and strings that differ only in ASCII case upper-case alike |
| Text.LowerChar | app.js:577 | exactly the ASCII capitals change, and they become lower case |
| Text.UpperChar | dashboard.js:37 | exactly the ASCII small letters change, and they become upper case |
| Text.IndexFrom | app.js:510 | the search returns the first occurrence at or after the start, and none when there is no occurrence |
| Text.ContainsMeansOccurs | app.js:577 | `includes` holds exactly when the pattern occurs somewhere |
| Text.ReplaceFirst | app.js:510 | `replace` with a string pattern puts the replacement where the first occurrence was and keeps the text on both sides; with no occurrence nothing changes |
| Sorting.KeyLeTotal | app.js:578-581 | the comparator compares any two entries |
| Sorting.KeyLeTransitive | app.js:578-581 | the comparator is transitive |
| Sorting.Filter | app.js:576-577 | `filter` keeps exactly the elements satisfying the predicate |
| Sorting.FilterAppend | app.js:576-577 | `filter` distributes over concatenation, so kept elements keep their order |
| Sorting.Insert | app.js:578-581 | inserting adds exactly the new element |
| Sorting.InsertSorted | app.js:578-581 | inserting into a sorted list keeps it sorted |
| Sorting.SortStable | app.js:578-581 | sorting permutes its input |
| Sorting.SortStableSorted | app.js:578-581 | the sorted output is ordered by the comparator |
| Sorting.InsertKeepsTies | app.js:578-581 | inserting appends the new element after the elements it ties with |
| Sorting.SortStableKeepsTies | app.js:578-581 | elements the comparator ties keep their input order (the sort is stable) |
| Sorting.Take | app.js:617 | `slice(0, limit)` is the prefix of length min(limit, length) |
| Sorting.SumByAppend | app.js:637 | a total over a concatenation is the sum of the two totals |
| Sorting.SumByPermutation | app.js:270 | reordering a list, as a sort does, keeps every total |
| Sorting.MapSeq | app.js:173 | `map` keeps the length and applies the function to each element |
| Records.Validate | app.js:120-127 | only well-formed rows survive: quarter present and not `IAF`, manufacturer present, a model on the leaderboard |
| Records.Normalize | dashboard.js:135-136 | a surviving row keeps its text fields, its score is the parsed score, an empty price reads as 0, and any other price is its parse |
| Records.ValidateOne | dashboard.js:115-121 | one row survives exactly when the filter accepts it |
| Records.ValidateAppend | dashboard.js:115-121 | validation commutes with concatenation, so survivors keep their input order |
| Records.ValidateMembership | app.js:120-127 | every accepted row is in the output, and every output row comes from an accepted row |
| Records.RowsWithMembers | dashboard.js:126-129 | a selection keeps exactly the rows holding the value in the column |
| Records.RowsWithCommute | dashboard.js:158-163 | grouping by quarter and then manufacturer equals grouping by manufacturer and then quarter |
| Records.FirstSeen | app.js:163-173 | the group keys are distinct and are exactly the values occurring in the column |
| Records.FirstSeenOrder | app.js:163-173 | the group keys come in the order in which the values first appear in the rows |
| Records.GroupedSortedDistinct | app.js:173-270 | the sorted per-group records are one per group: as many as groups, no two for the same group |
| Records.GroupsPartition | app.js:150-153 | when the keys cover every row once, the group sizes add up to the number of rows |
| Records.InsertKey | app.js:139 | inserting a label into a strictly increasing list keeps it strictly increasing and adds only that label |
| Records.Quarters | app.js:139 | the quarter list is strictly increasing and holds exactly the quarters of the rows |
| Records.QuartersDistinct | dashboard.js:123 | the quarter list has no duplicates |
| Records.QuarterOrderMembers | app.js:283 | the YTD rows are exactly the rows of the YTD quarters |
| Records.GroupSums | app.js:173 | when each group's record counts that group's rows, the counts add up to the group total |
| Records.GroupedSortedSum | app.js:173-270 | the sorted per-group records count every row exactly once |
| Records.GroupedSortedEntries | app.js:173-270 | every record in the sorted list is the record of an existing group |
| Records.GroupedSortedCovers | app.js:173-270 | every group has its record in the sorted list |
| Ohlc.Chain | dashboard.js:132-148 | one bar per quarter, carrying the quarter's label and its row count as volume |
| Ohlc.ChainAggregates | dashboard.js:139-147 | each bar's close, high, low, volume and average price are the mean, maximum, minimum, count and mean price of its quarter's rows |
| Ohlc.ChainCarriesForward | dashboard.js:137 | the first bar opens at its own close and every later bar opens at the previous close |
| Ohlc.BarIsConsistent | dashboard.js:139-147 | every bar has low <= close <= high, every score between low and high, and volume at least 1 |
| Ohlc.QuarterBucketsMembers | dashboard.js:126-129 | `dataByQuarter[q]` is labelled q and holds exactly the rows of quarter q |
| Ohlc.QuarterBucketsNonEmpty | dashboard.js:123-129 | every listed quarter has at least one row |
| Ohlc.SeriesOf | dashboard.js:132-148 | the market series has one bar per distinct quarter, in quarter order, and is non-empty when there are rows |
| Ohlc.SeriesAggregates | dashboard.js:132-148 | every bar of a series aggregates its quarter's rows, and the series carries forward |
| Ohlc.SeriesVolume | dashboard.js:132-148 | volume is conserved: the bar volumes add up to the number of valid rows |
| Ohlc.SeriesVolumeAt | dashboard.js:144 | the bar at quarter q counts the rows of q |
| Ohlc.QuarterVolumePartition | dashboard.js:154-183 | the manufacturers' volumes at a quarter add up to the market bar's volume there |
| Ohlc.VolumeAtAcrossIsGroupTotal | dashboard.js:158-181 | the manufacturers' volumes at a quarter are the sizes of their groups in that quarter |
| Ohlc.ManufacturerBars | dashboard.js:165-183 | a manufacturer with rows has a non-empty bar sequence |
| Ohlc.ManufacturerBarsAggregate | dashboard.js:169-183 | each manufacturer bar aggregates its group of its quarter, and it carries forward from the manufacturer's own previous bar |
| Ohlc.ManufacturerQuartersIncrease | dashboard.js:154-183 | a manufacturer's bar quarters strictly increase and are market quarters |
| Ohlc.ManufacturerBarPresence | dashboard.js:158-175 | a manufacturer has a bar at q exactly when it has rows in q |
| Ohlc.SeriesBarPresence | dashboard.js:126-148 | a series has a bar at quarter q exactly when some of its rows are in q |
| Ohlc.LatestManufacturerBar | dashboard.js:186 | a manufacturer's last bar is at the latest quarter in which it has rows |
| Ohlc.Summarize | dashboard.js:186-205 | the summary carries the manufacturer's name and a change of 0 for a single bar |
| Ohlc.SummaryOfLatestGroup | dashboard.js:186-205 | the summary's score, high, low, volume and average price are the mean, maximum, minimum, count and mean price of the manufacturer's rows in the latest quarter in which it has rows |
| Ohlc.LatestOfAllRows | dashboard.js:186 | no row of the manufacturer is in a quarter after that of its last bar |
| Ohlc.LastManufacturerBarAggregates | dashboard.js:175-183 | the last bar aggregates the manufacturer's rows of that bar's quarter |
| Ohlc.SummaryOfManufacturer | dashboard.js:186-205 | the summary reports the mean score and count of the latest quarter's rows, with low <= mii <= high, and its total volume counts every row of the manufacturer |
| Ohlc.ProcessOhlc | dashboard.js:210-216 | the bar map and the summary map have the same keys |
| Chart.AllPrices | dashboard.js:268 | the drawn prices are each bar's high, low, open and close in order |
| Chart.MaxVolume | dashboard.js:282 | `Math.max(...volumes, 1)` is at least 1, bounds every volume, and is 1 or some bar's volume |
| Chart.MakeLayout | dashboard.js:235-241 | there is a layout exactly when there are bars ("NO DATA" otherwise), with n the bar count |
| Chart.AllPricesBound | dashboard.js:268-270 | the minimum and maximum drawn price bound every bar's open, high, low and close |
| Chart.PricePadding | dashboard.js:271-274 | the scale pads the range by 12% on each side, and by 0.12 for a flat series |
| Chart.LayoutIsSound | dashboard.js:254-292 | the margins and plot fill the canvas, the candle, gap and volume areas stack to the plot height, and the padded price scale strictly covers every bar |
| Chart.ScaleYEndpoints | dashboard.js:277-279 | the top of the scale maps to the top of the candle area and the bottom of the scale to its bottom |
| Chart.ScaleYMonotone | dashboard.js:277-279 | a higher price is drawn higher up |
| Chart.ScaleYWithinCandleArea | dashboard.js:277-279 | every price on the scale is drawn inside the candle area |
| Chart.GridLabelsMatchLines | dashboard.js:302-311 | each grid line's label is the price the scale draws at that line |
| Chart.VolumeBarHeight | dashboard.js:365-366 | a volume bar rises from the bottom of the volume area by its share of the largest volume and stays inside the area |
| Chart.BodyWidthBounds | dashboard.js:292 | the candle body is between 3 and the cap, and exactly 55% of the slot when that share lies between them |
| Chart.CandleSlots | dashboard.js:290-294 | candle centres are one slot apart and every slot lies between the margins |
| HitTest.FindCandle | dashboard.js:410-417 | the scan returns the first candle within half a slot of the cursor, or -1 exactly when there is none |
| HitTest.CandleAt | dashboard.js:410-419 | a hit exists exactly when the cursor is inside the plot and near some candle |
| HitTest.NearIsUnique | dashboard.js:410-417 | with positive slots the cursor is near at most one candle |
| HitTest.CentreHits | dashboard.js:294 | a cursor at a candle's centre hits that candle and only it |
| HitTest.TooltipOf | dashboard.js:420-424 | the tooltip is "up" exactly when close >= open; its change has the same sign when open is positive, is 0 otherwise, and takes open to close |
| HitTest.PlaceBounds | dashboard.js:437-443 | the tooltip sits 12 to the right of the cursor, flipped left exactly when that would overflow; it never covers the cursor's x; it is clamped to the canvas and centred on the cursor when that fits |
| HitTest.OnMouseMove | dashboard.js:401-450 | without a stored layout nothing changes; a shown tooltip is that of a candle near the cursor inside the plot, at the computed place; otherwise the tooltip is hidden |
| Dashboard.SummaryOrderIsManufacturers | dashboard.js:154-199 | the summaries are listed once per manufacturer, for exactly the manufacturers with rows |
| Dashboard.ProcessOhlcKeys | dashboard.js:195-196 | the summary keys are the manufacturers, and each summary carries its key as name |
| Dashboard.SummaryListIsValues | dashboard.js:506 | `Object.values` lists every summary exactly once |
| Dashboard.FilteredManufacturers | dashboard.js:504 | before any data is processed the grid is empty, and it never grows the list |
| Dashboard.FilteredManufacturersMembers | dashboard.js:508-510 | the grid holds exactly the summaries with enough volume whose lower-cased name contains the lower-cased search |
| Dashboard.MatchingMembers | dashboard.js:509-510 | a summary passes the two filters exactly when its volume reaches the minimum and its lower-cased name contains the lower-cased search |
| Dashboard.FilteredManufacturersOrder | dashboard.js:511-519 | the grid is ordered by the chosen control, and tied summaries keep their listed order |
| Dashboard.FilteredByMii | dashboard.js:512-517 | sorting by score (or an unknown control) lists higher scores first |
| Dashboard.FilteredByVolume | dashboard.js:514 | sorting by volume lists larger volumes first |
| Dashboard.FilteredByChange | dashboard.js:515 | sorting by change lists larger changes first |
| Dashboard.FilteredByName | dashboard.js:516 | sorting by name lists names in ascending order |
| Dashboard.Branding | dashboard.js:35-40 | a listed manufacturer gets its table entry; any other gets the upper-cased first three characters of its name on `#888` |
| Dashboard.BrandingAbbrIsShortUpper | dashboard.js:9-40 | every badge has at most three characters and no lower-case ASCII letter |
| Dashboard.TableAbbrIsShortUpper | dashboard.js:9-33 | every table badge is two or three capital letters |
| Dashboard.TableAbbrsAreShortUpper | dashboard.js:9-33 | every abbreviation the table hands out is two or three capital letters |
| Board.Find | app.js:189 | `find` returns an entry with that make, and nothing exactly when no entry has it |
| Board.TrendAsWritten | app.js:191 | the unguarded trend is undefined exactly when the previous score is 0 |
| Board.Trend | app.js:184-194 | the guarded trend is 0 for a zero previous score; otherwise applying it to the previous score gives the current one, and its sign is the direction of the move |
| Board.Present | app.js:324 | `filter(v => v !== null)` keeps exactly the present values |
| Board.PresentAppend | app.js:324 | the filter keeps the present values in their order: it distributes over concatenation |
| Board.PresentSingle | app.js:324 | a single present value is kept and a single `null` dropped |
| Board.YtdScoresFrom | app.js:320-324 | the filtered map over the YTD quarters from the i-th on is the sequence of the stored scores of those quarters the manufacturer appears in, one per quarter, in quarter order |
| Board.YtdHistoryScores | app.js:320-324 | the YTD history is the manufacturer's stored score in each YTD quarter it appears in, one per such quarter, in quarter order |
| Board.YtdHistoryMembers | app.js:320-324 | a value is in the YTD history exactly when it is the stored score of some YTD quarter |
| Board.DisplayQuarters | app.js:147 | the displayed list is the quarter list with only its last label suffixed `-QTD` |
| Board.ProcessCsv | app.js:132-136 | the pass fails with "no valid data" exactly when no row survives validation |
| Board.ConfidenceMonotone | app.js:212-215 | more auctions never lower a manufacturer's or a model's confidence tier |
| Board.ModelsSum | app.js:230-253 | the models' auction counts add up to the manufacturer's rows |
| Board.ModelsSorted | app.js:265 | models are listed highest mean score first |
| Board.ModelsEntries | app.js:246-253 | each model entry has its rows' count, mean score, mean price and the tier of its count |
| Board.ModelsCover | app.js:221-244 | every model of the manufacturer's rows has its entry |
| Board.ModelsNonEmpty | app.js:230-244 | no model entry counts zero auctions |
| Board.MakeOfModels | app.js:255-266 | a manufacturer entry's model counts add up to its auctions; its score, trend and price are within rounding of the exact values |
| Board.QuarterKeysDistinct | app.js:143-147 | the storage keys of different quarters differ, including the `-QTD` key |
| Board.LaterKeysAbsent | app.js:158-159 | while quarter k is processed, no later quarter is stored yet |
| Board.StoredAt | app.js:158-271 | quarter i's list is stored under its key, computed from the quarters before it, and later quarters do not overwrite it |
| Board.BuildAt | app.js:269-271 | the stored list of each quarter is that quarter's entries against the earlier quarters |
| Board.HistoryFromShape | app.js:198-209 | the history loop yields the stored rounded scores of the earlier quarters visited, where the manufacturer appears, in order, and then the current mean |
| Board.HistoryShape | app.js:197-209 | the history is the manufacturer's stored rounded scores of the up to two previous quarters, where present, followed by the current quarter's unrounded mean, so one to three entries |
| Board.QuarterMakeOfFacts | app.js:173-266 | a quarter entry counts the manufacturer's rows of that quarter, with their tier; its history is its stored scores of the two quarters before, then its mean; its trend is 0 in the first quarter or when the manufacturer is absent from the previous one, and otherwise the rounded guarded change against its previous rounded score |
| Board.QuarterMakeOfCounts | app.js:173-265 | a quarter entry names its manufacturer, counts its rows as auctions with the matching confidence tier, and its models' auctions add up to that count |
| Board.QuarterMakeOfHistory | app.js:196-209 | a new entry's history is its stored rounded scores of the up to two quarters before, where present, then its unrounded mean score |
| Board.QuarterMakeOfTrend | app.js:184-194 | the trend is 0 in the first quarter or when the manufacturer was absent before, and otherwise the guarded change against the previous score to one decimal |
| Board.QuarterMakesSum | app.js:162-173 | a quarter's entries count every row of that quarter exactly once |
| Board.QuarterMakesSorted | app.js:270 | a quarter's entries are listed highest rounded score first |
| Board.QuarterMakesEntries | app.js:173-270 | a quarter's list has exactly one entry per manufacturer present, each that manufacturer's own |
| Board.YtdMakesSum | app.js:283-296 | the YTD entries count every row of the YTD quarters exactly once |
| Board.YtdMakesSorted | app.js:383-384 | the YTD entries are listed highest rounded score first |
| Board.YtdMakesEntries | app.js:286-296 | the YTD list has exactly one entry per manufacturer with YTD rows, and each is that manufacturer's own |
| Board.YtdMakeOfFacts | app.js:296-379 | a YTD entry counts its manufacturer's YTD rows with the YTD tiers; its score and price are their rounded means; its trend is the rounded guarded change from its first to its last YTD quarter score when there are two YTD quarters or more and it appears in both, and 0 otherwise; its history is exactly its stored score in each YTD quarter it appears in, one per such quarter, in quarter order |
| Board.TrendAgrees | app.js:191 | the guarded trend equals the written one wherever the latter is defined |
| Board.QuarterTrendAgrees | app.js:184-194 | the written quarter trend is undefined exactly when the previous stored score is 0, and otherwise equals the guarded trend |
| Board.TrendDivisionByZero | app.js:191 | a manufacturer stored with rounded score 0 makes the next quarter's written trend divide by zero |
| Board.ProcessCsvQuarters | app.js:139-147 | with valid rows the pass succeeds, and its quarter list is the display quarters, preceded by "YTD" when the current year has data |
| Board.ProcessCsvStored | app.js:269-271 | every quarter's list is stored under its key, unless a quarter named "YTD" is overwritten |
| Board.ProcessCsvDefault | app.js:393-403 | the default list is the YTD list when the current year has data, and otherwise the latest quarter's |
| Board.StoredEntry | app.js:173-271 | every manufacturer present in a quarter is stored in that quarter's list with its own entry |
| Selectors.FilteredMakes | app.js:570-582 | the grid never grows the selected list |
| Selectors.FilteredMakesMembers | app.js:576-577 | the grid holds exactly the selected entries with enough auctions whose lower-cased make contains the lower-cased search |
| Selectors.GridMatchingMembers | app.js:576-577 | an entry passes the two filters exactly when it has enough auctions and its lower-cased make contains the lower-cased search |
| Selectors.FilteredMakesOrder | app.js:578-581 | the grid is ordered by the chosen field in the chosen direction, and ties keep their order |
| Selectors.TaggedMembers | app.js:602-609 | a manufacturer contributes exactly its models with enough auctions, tagged with its make |
| Selectors.CandidatesMembers | app.js:596-611 | the candidates are exactly the qualifying models of the selected manufacturers |
| Selectors.TopModels | app.js:615-617 | at most `limit` models are listed |
| Selectors.TopModelsPrefix | app.js:615-617 | the list has min(limit, candidates) models, highest score first |
| Selectors.TopModelsFromCandidates | app.js:615-617 | every listed model is a candidate |
| Selectors.TopModelsQualify | app.js:592-611 | every listed model has at least the effective minimum of auctions (none for YTD) and belongs to a selected manufacturer |
| Selectors.TopModelsBest | app.js:615-617 | no candidate left out scores higher than a listed model |
| Selectors.TopModelsTies | app.js:615-617 | models with equal scores are listed in candidate order, and nothing is listed more often than it is a candidate |
| Selectors.SumByAtLeast | app.js:624-637 | every filtered manufacturer contributes at least the minimum to the auction total |
| Selectors.MarketStatsFacts | app.js:620-641 | the summary counts the manufacturers passing the auction filter and totals their auctions, at least the minimum per manufacturer; the mean score is the mean of their scores, between the lowest and highest; the average price is `NaN` exactly when some price is, otherwise their mean; all zeros when none pass |
| Selectors.MarketStatsPrice | app.js:639 | the average price is `NaN` exactly when some filtered price is, and otherwise their mean, between the lowest and highest |
| Selectors.Without | app.js:1188 | removal keeps exactly the other makes and keeps the list free of duplicates |
| Selectors.ToggleCompare | app.js:1186-1194 | a listed make is removed; an absent make is added exactly when fewer than 4 are listed |
| Selectors.ToggleKeepsInvariant | app.js:1186-1194 | toggling keeps the compare list at most 4 long and free of duplicates |
| Selectors.WithoutRemovesOne | app.js:1188 | in a duplicate-free list, removing a make deletes its one occurrence and keeps the rest in order |
| Selectors.WithoutAbsent | app.js:1188 | removing an absent make changes nothing |
| Selectors.ToggleEffect | app.js:1186-1194 | toggling removes exactly the make, appends it when there is room, and otherwise changes nothing |
| Selectors.ToggleTwice | app.js:1186-1194 | adding a make and toggling it again restores the list |
| Selectors.FormatQuarterDisplay | app.js:508-514 | a label without the suffix is unchanged; a suffixed one ends in " (QTD)" |
| Selectors.QtdSuffixFirst | app.js:510 | in a quarter with the suffix appended, the first `-QTD` is the appended one |
| Selectors.FormatQtd | app.js:508-514 | the marked latest quarter `q-QTD` is displayed as `q (QTD)` |
| Selectors.TrendIndicator | app.js:531-543 | the arrow is flat below half a percent either way and otherwise follows the sign; the magnitude is \|value\| to one decimal |
| Selectors.TrendIndicatorMirror | app.js:531-543 | negating a trend mirrors its arrow and keeps its magnitude |

## Left out

- Fetching the CSV and parsing it (`fetch`, Papa Parse) are I/O. The model starts from parsed rows, and `parseFloat` is a parameter.
- The canvas drawing, the DOM, Chart.js and the HTML renderers are presentation. Only the layout arithmetic and the values they display are modelled.
- Floating point is not modelled. Numbers are exact reals, so the double-rounding artefacts of `toFixed(1)` and `Math.round` on binary fractions, and summation order, are not modelled.
- String order is by code point, and case mapping is ASCII only:
  - `localeCompare` (dashboard.js:516) is modelled by code-point order;
  - `toLowerCase`/`toUpperCase` are modelled on ASCII letters only.
- The ordering of integer-like keys by `Object.keys`/`Object.values` is not modelled. Group keys are listed in insertion order, which JavaScript breaks for keys such as "2024".
- Inherited object properties are not modelled; every name is an ordinary key. In the source a manufacturer named like a property of `Object.prototype` (`constructor`, `toString`) finds `mfrGroups[mfr]` already set to the inherited function, so the following `.push` throws a `TypeError` and the whole pass fails (dashboard.js:161-162, app.js:166-169); a model so named is grouped onto the inherited value and then skipped by `Object.values`, which lists own properties only (app.js:231-246).
- The default arguments of `getTopModels(minAuctions = 3, limit = 15)` (app.js:584, used at app.js:657) and the default chart options (dashboard.js:244-249) are not constants of the model: Selectors.TopModels and the Chart operations take them as parameters.
- `quarterMIITrends` (app.js:405-419) is a placeholder computed from constants and has no consumer in the core.
- `sellThrough` is the constant 75 (app.js:218, 332) and is stored as such.
- `getConfidenceBadge` and `createSparkline` are presentation.
- The `mouseleave` handler (dashboard.js:452-454) unconditionally hides the tooltip, so there is nothing to state about it.
- Chart options that only affect colours or labels (`showLabels`, `volumeColor`) are not modelled.
- The summary-update guard `qIdx >= quarters.indexOf(...)` (dashboard.js:186) is always true, because quarters are visited in increasing order. The summary is therefore taken at the manufacturer's last bar.
- `dataByQuarter` in the result of `processOHLCData` is `Ohlc.QuarterBuckets`, and is not a field of `Ohlc.OhlcData`.
- app.py is the back end and is not part of this model.
- Selectors.FieldOf: a `NaN` average price is sorted as 0. In the source, the comparator returns `NaN`, which makes the sort's order unspecified.
- Selectors.GridState: `sortBy` ranges over the four numeric fields. A text field would make the comparator return `NaN`, as above.
- Board.DefaultMakes: the fallback to an empty list is unreachable, because the latest quarter's key is always stored (Board.BuildAt). The source would keep its previous list there.
- Text.StrLt: compares characters by code point. `Array.prototype.sort()` without a comparator compares UTF-16 code units, which order differently for characters outside the Basic Multilingual Plane.
- Board.QuarterTrend, Board.YtdTrend: store the guarded trend, 0 when the earlier rounded score is 0. app.js:191 and 315 divide by that 0 and store an infinity or `NaN` (see Findings); the unguarded values are Board.QuarterTrendAsWritten and Board.TrendAsWritten.
- Board.QuarterMakeOfFacts: the trend it states is the guarded one, which differs from app.js:191 when the previous rounded score is 0.
- Board.QuarterMakeOfTrend: the trend it states is the guarded one, which differs from app.js:191 when the previous rounded score is 0.
- Board.YtdMakeOfFacts: the trend it states is the guarded one, which differs from app.js:315 when the first rounded score is 0.
- Ohlc.ProcessOhlc: the terminal does not raise "no valid data"; with no valid rows it produces empty bars and summaries, as the code does.

Behaviour of the code that the model keeps:

- **Price.** An empty price reads as 0, but any other text that does not parse is `NaN`, which makes the mean price `NaN`.
- **Change.** A summary's change is forced to 0 whenever the previous close is not positive (`prev > 0`, dashboard.js:192), not only when it is 0.
- **Flat series.** A flat series is padded by 0.12, from a range of 1 (dashboard.js:271).
- **Volume scale.** The volume scale's top is at least 1 (dashboard.js:282).

## Findings

| source | as written | input that shows it | evidently intended | confidence | as-written member | corrected member |
|---|---|---|---|---|---|---|
| app.js:191 | `trend = ((avgMII - prevMfr.miiScore) / prevMfr.miiScore) * 100` has no zero guard, so a previous rounded score of 0 gives `Infinity` or `NaN` as the trend | a manufacturer whose quarter-1 scores average below 0.05 (one row with `mii_score` "0") and who has rows in quarter 2 | a trend of 0 when the previous score is 0, as the terminal's `prev > 0` guard does (dashboard.js:192) | not executed | Board.TrendDivisionByZero | Board.QuarterTrendAgrees |
| app.js:315 | the YTD trend divides by the first YTD quarter's rounded score with the same missing guard | a manufacturer with rounded score 0 in the first YTD quarter who also appears in the last one | a trend of 0 when the first score is 0 | not executed | Board.TrendAsWritten | Board.TrendAgrees |
