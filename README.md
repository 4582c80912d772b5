# pylite chart bridge, modelled in Dafny

pylite is a desktop widget (PySide6) that shows stock charts. It embeds a
web page running the Lightweight Charts library. The Python `ChartWidget`
formats a price table into bar records, each with a time-zone-adjusted
timestamp. It then drives the page by submitting one script per operation.
The page script (`chart.js`) keeps a main chart and its sub-charts. Each
chart has a candlestick series, a volume series, labelled line series and a
legend. A crosshair manager keeps the crosshairs of all charts in step.

The project models both versions in the repository:

- the packaged widget `pylite/Chart.py` with its page `pylite/scripts/chart.js`;
- the first widget `Chart.py` with its page `scripts/chart.js`.

Modules:

- `Bars` (`bars.dfy`): the bar formatter `convert_data_to_js_format`. Python's
  `int()` on a float truncates toward zero, and this is written out in
  `TruncateToInt`. The zone database is a total function `offset` from a UTC
  second to the zone's UTC offset at that second. The source fixes the zone
  to Asia/Kolkata.
- `PageData` (`page_data.dfy`): the values the page works with:
  - the volume and line projections of the bars;
  - the line options and their merge, which follows JavaScript's
    `{...a, ...b}`;
  - the library chart as a value, with series handles as tokens;
  - the crosshair event parameter and the legend's content.
- `Page` (`page.dfy`): the packaged page's `Legend`, `Chart`,
  `CrosshairManager` and `ParentChart` as classes whose methods update their
  fields. It also holds `getCrosshairDataPoint`, `syncCrosshair` and the
  callback these two form.
- `LegacyPage` (`legacy_page.dfy`): the first page's single `Chart` class,
  including `createCandlestickChartWithData`.
- `Commands` (`commands.dfy`): the scripts the widgets submit, as typed
  commands. It also holds the Python line-style parameters with the options
  object built from them, and the outcome of a call that raises.
- `Widget` (`widget.dfy`): the packaged `ChartWidget`. Its `log` holds the
  submitted commands, oldest first. Its `subCharts` is the sub-chart id
  registry.
- `LegacyWidget` (`legacy_widget.dfy`): the first `ChartWidget`.
- `Seqs` (`seqs.dfy`) and `Wrappers` (`wrappers.dfy`): list helpers
  (`indexOf`, `splice`, `list.remove`, `filter`) and `Option`.

The model of each page chart keeps one invariant, `PageData.SlotsValid`:

- the library chart holds exactly the series in the page chart's slots;
- every handle was given out by the library chart;
- no series sits in two slots.

Every page method that adds or removes a series preserves it.

The model follows the code in these places, where the method names alone
suggest otherwise:

- **Width and height.** A sub-chart gets the size of the web view as stored
  by the last `mainChart_addCandlestickSeries`. If that was never called, the
  attributes `width` and `height` are Qt's own methods, and their text is
  formatted into the script. `Commands.AddSubChartCommand` therefore carries
  `Option<int>` sizes.
- **Volume before candlestick.** `mainChart_addVolumeSeries` (and the
  sub-chart forms) called before any candlestick call raise `AttributeError`
  in Python. They submit nothing. The failure is not deferred to the page.
- **Candlestick replacement.** The packaged page keeps an existing
  candlestick series and only resets its data. The first page removes the
  series and adds a new one.
- **Line titles.** Titles are not kept unique. `addLineSeries` appends a
  duplicate title, and `removeLineSeries(title)` removes only the first
  series with that title.
- **Sub-chart ids.** The widget's sub-chart operations do not check the id
  against the registry.
- **Crosshair manager.** `ParentChart.removeSubChart` never unsubscribes the
  removed chart, so the crosshair manager keeps its reference.

## Model

| member | source | states |
|---|---|---|
| Bars.TruncateToInt | pylite/Chart.py:28 | `int()` of a float truncates toward zero: `0 <= n <= x < n+1` for non-negative `x`, `n-1 < x <= n <= 0` for negative `x` |
| Bars.Converted | pylite/Chart.py:23-41 | the formatter's list has exactly one record per row |
| Bars.ConvertedAt | pylite/Chart.py:28-40 | record `k` has time `t + offset(t)`, where `t` is row `k`'s instant truncated to whole seconds; its open, high, low, close and volume are row `k`'s, unchanged |
| Bars.ConvertedAppend | pylite/Chart.py:26-41 | formatting `a + b` gives the records of `a` followed by those of `b`, so input order is kept |
| Bars.TimesIncrease | pylite/Chart.py:28-32 | if the rows' instants strictly increase and local time never steps back, the records' times strictly increase |
| Bars.ConvertDataToJsFormat | pylite/Chart.py:23-41 | the loop returns the formatted list: as long as the input, record `k` built from row `k` |
| LegacyWidget.ChartWidget.ConvertDataToJsFormat | Chart.py:39-61 | the first widget's copy of the formatter returns the same list: one record per row, each shifted by the zone offset at its instant, prices and volume copied |
| LegacyWidget.ChartWidget.OnPageLoadFinished | Chart.py:31-37 | on page load, submits exactly two scripts in order: the page script read at construction, then the construction of the chart in `chart-container` |
| LegacyWidget.ChartWidget.CreateCandlestickChartWithData | Chart.py:67-78 | stores the view size, symbol, rows and formatted bars, and submits one command carrying the size, the symbol and the formatted rows |
| LegacyWidget.ChartWidget.constructor | Chart.py:9-29 | nothing is stored or submitted yet; the page script text is kept |
| Widget.ChartWidget.constructor | pylite/Chart.py:44-62 | the sub-chart registry is empty, nothing is submitted, no attribute is set |
| Widget.ChartWidget.OnPageLoadFinished | pylite/Chart.py:64-68 | submits exactly the construction of the main chart `main-chart`, 800 by 600 |
| Widget.ChartWidget.MainAddCandlestickSeries | pylite/Chart.py:74-85 | stores the view size, the symbol, the rows and their formatted bars, keeps the registry, and submits the symbol with the formatted bars to the main chart |
| Widget.ChartWidget.MainRemoveCandlestickSeries | pylite/Chart.py:87-91 | submits the removal of the main candlestick series |
| Widget.ChartWidget.MainAddVolumeSeries | pylite/Chart.py:93-103 | before any candlestick call: raises `AttributeError` on `js_data` and submits nothing; otherwise submits the stored bars as the volume series with candlestick margins 0.1/0.21 and volume margins 0.8/0 |
| Widget.ChartWidget.MainRemoveVolumeSeries | pylite/Chart.py:105-112 | submits the removal of the volume series and restores the candlestick margins 0.1/0 |
| Widget.ChartWidget.MainAddLineSeries | pylite/Chart.py:114-152 | formats its own rows afresh and submits a line series over `valueName` titled `title`, with every option named by the parameters |
| Widget.ChartWidget.MainRemoveLineSeries | pylite/Chart.py:154-158 | submits the removal of the line titled `title` |
| Widget.ChartWidget.AddSubChart | pylite/Chart.py:160-168 | the id is `sub_chart_` followed by the fresh token; it is appended to the registry, which stays duplicate-free, and returned; the sub-chart is created with the stored size |
| Widget.ChartWidget.RemoveSubChart | pylite/Chart.py:170-179 | a registered id is removed (its only occurrence, the rest in order) and its teardown submitted; an unknown id changes nothing and submits nothing |
| Widget.ChartWidget.SubAddCandlestickSeries | pylite/Chart.py:181-185 | before any main candlestick call: raises `AttributeError` on `symbol` and submits nothing; otherwise submits the stored symbol and bars to the sub-chart |
| Widget.ChartWidget.SubRemoveCandlestickSeries | pylite/Chart.py:187-191 | submits the removal of the sub-chart's candlestick series |
| Widget.ChartWidget.SubAddVolumeSeries | pylite/Chart.py:193-203 | like the main form, addressed to the sub-chart: raises when no bars are stored, otherwise submits them with the same margins |
| Widget.ChartWidget.SubRemoveVolumeSeries | pylite/Chart.py:205-212 | submits the removal of the sub-chart's volume series with margins 0.1/0 |
| Widget.ChartWidget.SubAddLineSeries | pylite/Chart.py:214-252 | submits a line series of the freshly formatted rows to the sub-chart with every option named |
| Widget.ChartWidget.SubRemoveLineSeries | pylite/Chart.py:254-258 | submits the removal of the sub-chart's line titled `title` |
| Widget.TwoSubChartsThenRemoveOldest | app.py:45-50 | the window's first-in-first-out use of sub-chart ids, on the packaged widget: creating A and B and removing A leaves exactly B in the registry; removing A again submits nothing |
| Commands.SentOptionsOverrideDefaults | pylite/Chart.py:134-150 | the widget always names every option, so the page's merge with its defaults yields exactly what the widget sent |
| Commands.DefaultParamsGiveDefaultOptions | pylite/Chart.py:118-129 | the Python default parameters build exactly the page's default line options |
| PageData.VolumeProjection | pylite/scripts/chart.js:263-269 | one point per bar, with the bar's time and its `valueName` field; the colour is up (`#26a69aaa`) exactly when close > open, down (`#ef5350aa`) otherwise |
| PageData.LineProjection | pylite/scripts/chart.js:300-305 | one point per bar, with the bar's time and its `valueName` field |
| PageData.MergeOptions | pylite/scripts/chart.js:296 | the merged options have the keys of both; an override wins; a default stays where there is no override |
| PageData.MergeWithDefaultsAgreeing | scripts/chart.js:122 | overriding with values equal to the defaults leaves exactly the defaults |
| PageData.MergeWithFullOverrides | pylite/scripts/chart.js:296 | overrides naming every default key replace the defaults entirely |
| PageData.AttachSeries | pylite/scripts/chart.js:258-261 | adding a series attaches the handle `nextSeries` and raises `nextSeries`, changing nothing else; that this handle is new to the chart follows from `SlotsValid`, under which every attached handle is below `nextSeries` |
| PageData.LineHandlesAppend | pylite/scripts/chart.js:307 | appending a line series adds exactly its handle to the line handles |
| PageData.RemoveLineKeepsSlots | pylite/scripts/chart.js:317-325 | removing the `i`th line series and detaching it from the library chart keeps the slot invariant |
| PageData.FirstTitled | pylite/scripts/chart.js:318 | `find` by title: `None` exactly when no line series has the title; otherwise the first position that has it |
| PageData.TitledWithAppend | pylite/scripts/chart.js:317-325 | selecting the series of one title works piecewise over a concatenation |
| PageData.RemoveTitledKeepsOthers | pylite/scripts/chart.js:317-325 | removing a series titled `title` leaves the series of every other title exactly as they were, in order |
| PageData.Titles | pylite/scripts/chart.js:113-117 | the legend lists one title per line series, in list order |
| Seqs.IndexOf | pylite/scripts/chart.js:321 | `indexOf` of a present element: a position holding it, with no earlier one |
| Seqs.RemoveAt | pylite/scripts/chart.js:323 | `splice(index, 1)`: one element shorter, the elements before `index` in place, those after it shifted down by one |
| Seqs.RemoveAtDistinct | pylite/Chart.py:171-173 | removing from a duplicate-free list keeps it duplicate-free, drops the removed element and keeps every other one |
| Seqs.RemoveAtMultiset | pylite/scripts/chart.js:385 | the removal loses exactly one copy of the removed element and adds nothing |
| Seqs.Without | pylite/scripts/chart.js:15 | `filter(c => c !== x)`: no longer than the input; every survivor was in the input and differs from `x`; every element other than `x` survives |
| Seqs.WithoutAppend | pylite/scripts/chart.js:15 | the filter works piecewise, so survivors keep their order |
| Seqs.WithoutAbsent | pylite/scripts/chart.js:15 | unsubscribing a chart that is not subscribed changes nothing |
| Seqs.WithoutCount | pylite/scripts/chart.js:15 | exactly the occurrences of the chart are dropped |
| Page.Legend.constructor | pylite/scripts/chart.js:57-60 | there is no legend element yet |
| Page.Legend.CreateLegend | pylite/scripts/chart.js:62-81 | makes an empty legend only when there is none; otherwise nothing changes |
| Page.Legend.UpdateLegend | pylite/scripts/chart.js:83-128 | without a legend nothing happens; at an invalid crosshair point the legend is emptied; at a valid one it shows the chart's symbol if truthy, the candlestick and volume values if those series exist, and every line series' title in order |
| Page.Legend.RemoveLegend | pylite/scripts/chart.js:130-135 | afterwards there is no legend |
| Page.Chart.constructor | pylite/scripts/chart.js:209-217 | no library chart, no series, no symbol, and a new legend for the same container without an element |
| Page.Chart.CreateChart | pylite/scripts/chart.js:219-233 | the first call creates the library chart with the given size and options, subscribes this chart to the crosshair manager (appended last) and creates its legend; later calls change nothing |
| Page.Chart.AddCandlestickSeries | pylite/scripts/chart.js:235-245 | keeps an existing candlestick series (same handle, library chart unchanged) or attaches a new one; then the symbol is recorded and the series holds `data` |
| Page.Chart.RemoveCandlestickSeries | pylite/scripts/chart.js:247-253 | the candlestick series, if any, is detached from the library chart and the slot emptied; the other slots are unchanged |
| Page.Chart.AddVolumeSeries | pylite/scripts/chart.js:255-270 | any old volume series is detached, and a new one with a fresh handle holds the volume projection of `data` |
| Page.Chart.RemoveVolumeSeries | pylite/scripts/chart.js:272-277 | the volume series, if any, is detached and the slot emptied |
| Page.Chart.AddLineSeries | pylite/scripts/chart.js:279-308 | appends exactly one series with a fresh handle, the title, the defaults merged with the given options, and the line projection of `data` |
| Page.Chart.RemoveAllLineSeries | pylite/scripts/chart.js:310-315 | every line series is detached from the library chart and the list is emptied; the other slots are unchanged |
| Page.Chart.RemoveLineSeries | pylite/scripts/chart.js:317-325 | with no series titled `title` nothing changes; otherwise the first such series is detached and removed, the rest keep their order |
| Page.CrosshairManager.constructor | pylite/scripts/chart.js:4-5 | the manager starts with no charts |
| Page.CrosshairManager.SubscribeChart | pylite/scripts/chart.js:7-12 | appends the chart and creates its legend |
| Page.CrosshairManager.UnsubscribeChart | pylite/scripts/chart.js:14-16 | drops every occurrence of the chart; the others keep their order |
| Page.FindById | pylite/scripts/chart.js:356 | `find` by container id: `None` exactly when no sub-chart has the id; otherwise the first position that has it |
| Page.UniqueIdsDistinct | pylite/scripts/chart.js:355-367 | sub-charts with distinct container ids are distinct objects |
| Page.RemoveAtUniqueIds | pylite/scripts/chart.js:382-386 | removing a sub-chart keeps the container ids unique |
| Page.ParentChart.constructor | pylite/scripts/chart.js:333-338 | no sub-charts; a new main chart created with the main options, subscribed to the crosshair manager, with an empty legend |
| Page.ParentChart.AddSubChart | pylite/scripts/chart.js:355-367 | returns the existing sub-chart with that container id, changing nothing; otherwise a new chart created with the sub-chart options, with no series and no symbol, subscribed, with an empty legend, appended last and returned; ids stay unique |
| Page.ParentChart.RemoveSubChart | pylite/scripts/chart.js:382-393 | a listed sub-chart is removed from the list, the rest in order; an unlisted one changes nothing |
| Page.GetCrosshairDataPoint | pylite/scripts/chart.js:400-406 | a data point exactly when the crosshair time is truthy and the series has data there; it is then that data |
| Page.SyncCrosshair | pylite/scripts/chart.js:408-415 | the chart's crosshair is set to the data point's value and time on `series`, or cleared when there is no data point; nothing else changes |
| Page.OnCrosshairMove | pylite/scripts/chart.js:37-44 | the target's crosshair follows the source candlestick series' data point onto the target's candlestick series, and is cleared exactly when the source has no data at a truthy time; the target's series, symbol and every other field of its library chart are unchanged |
| LegacyPage.PresetLineOptionsAreDefaults | scripts/chart.js:228-229 | the fixed options of the two preset lines leave the defaults unchanged |
| LegacyPage.Chart.constructor | scripts/chart.js:5-13 | no library chart, series, legend or symbol |
| LegacyPage.Chart.CreateChart | scripts/chart.js:15-57 | the first call creates the library chart with the given size and zero margins; later calls change nothing |
| LegacyPage.Chart.AddCandlestickSeries | scripts/chart.js:59-70 | any old candlestick series is detached; a new one with a fresh handle holds `data`; the symbol is recorded |
| LegacyPage.Chart.RemoveCandlestickSeries | scripts/chart.js:72-77 | the candlestick series, if any, is detached and the slot emptied |
| LegacyPage.Chart.AddVolumeSeries | scripts/chart.js:79-95 | any old volume series is detached, and a new one holds the volume projection of `data` |
| LegacyPage.Chart.RemoveVolumeSeries | scripts/chart.js:97-102 | the volume series, if any, is detached and the slot emptied |
| LegacyPage.Chart.AddLineSeries | scripts/chart.js:104-134 | appends exactly one series with a fresh handle, the title, the merged options and the line projection |
| LegacyPage.Chart.RemoveLineSeries | scripts/chart.js:136-141 | every line series is detached and the list emptied |
| LegacyPage.Chart.CreateLegend | scripts/chart.js:143-162 | makes an empty legend only when there is none |
| LegacyPage.Chart.UpdateLegend | scripts/chart.js:172-208 | without a legend nothing happens; at an invalid point the legend is emptied; at a valid one it shows the symbol (even `null`), the candlestick and volume values, and every line title in order. That branch assumes both series exist, as `createCandlestickChartWithData` ensures before it makes the legend; the script's throw when one is missing is not modelled |
| LegacyPage.Chart.RemoveLegend | scripts/chart.js:210-215 | afterwards there is no legend |
| LegacyPage.Chart.CreateCandlestickChartWithData | scripts/chart.js:217-234 | afterwards the chart holds exactly four series: the candlestick series with `data`, the volume projection of its `volume` field, and the lines `Line1` (close) then `Line2` (open) with the default options. The symbol is set and the legend is fresh and empty. The library chart keeps its size, options and crosshair if it existed; otherwise it is new, with the given size, zero margins and a cleared crosshair |

## Left out

- Qt and the web engine: building the view, loading the HTML page, layout. `runJavaScript` is asynchronous; the model keeps only the order in which scripts are submitted, as the command log.
- Script text: the model records typed commands, not the f-string text. Quoting and script injection through symbols or titles are not modelled.
- Reading `scripts/chart.js` in the first widget is file I/O, so the text is a constructor parameter (`loadScript`).
- `uuid.uuid4().hex` is randomness. `AddSubChart` takes the token as a parameter and requires the id to be new, which a UUID gives in practice.
- The time-zone database (`tz.gettz`, `utcoffset`) is abstracted as the `offset` function. Seasonal changes appear only through it.
- Floating point: prices, volume and timestamps are reals. NaN, rounding and the float type of `t_local` are not modelled.
- Everything inside Lightweight Charts beyond which series are attached and where the crosshair sits: rendering, series options other than line options, `setData` ordering checks. Chart options are reduced to their price scale margins.
- The price-scale margin scripts (`priceScale().applyOptions`) are recorded in the commands but not applied to the page model. This includes the first page's candlestick margins of 0.2/0.21 in `createCandlestickChartWithData`.
- `syncChartsTimeScale` and the subscription loops of `syncChartsCrosshairMove`: subscribing callbacks to the library is not modelled. The callback they install is, as `Page.OnCrosshairMove`. The manager is one object passed to the page methods, not the global `window.CrosshairManager`.
- The `if (!window.X)` guards around each class definition: the page script is modelled as loaded once.
- DOM work: `createMainChartContainer`, `createSubchartContainer`, the container removal in `removeSubChart`, and the legend's styling.
- Legend number and date formatting (`toFixed`, `toUTCString`): the legend content is abstracted as which parts it shows.
- `addLegendEntry` of the first page, which nothing calls.
- JavaScript `TypeError`s: page methods that use the library chart require it to exist (`Created()`), because every caller creates it first. The legend's reads of missing `seriesData` entries are not modelled.
- The window in `app.py` (input field, buttons, yfinance fetch) and `setup.py`. The window imports the first widget (`Chart.py`), which has no `addSubChart` or `removeSubChart`; its sub-chart buttons are modelled against the packaged widget instead.
- Bars.Converted: its own contract states only the length; the per-record content is stated by `Bars.ConvertedAt` and by the methods that build the list.
