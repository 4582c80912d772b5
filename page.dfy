/** The page script of the packaged widget: the `Chart` objects that own a
    library chart and its candlestick, volume and line series, the `Legend`
    drawn over each chart, the `CrosshairManager` that keeps the list of
    charts whose crosshairs move together, and the `ParentChart` (the main
    chart) with its list of sub-charts.  `ParentChart` extends `Chart` in
    the script; here it holds its chart part as `main`. */
module Page {
  import opened Wrappers
  import opened Bars
  import opened PageData
  import Seqs

  /** `chart.Symbol` as the legend shows it: only when it is truthy, so
      neither `null` nor the empty string. */
  function ShownSymbol(symbol: Option<string>): Option<string> {
    if symbol.Some? && symbol.value != "" then symbol else None
  }

  /** The legend drawn over a chart: `element` is the legend's `div` and
      what it shows, `None` while there is none. */
  class Legend {
    const containerId: string
    var element: Option<LegendText>

    constructor(containerId: string)
      ensures this.containerId == containerId && element.None?
    {
      this.containerId := containerId;
      element := None;
    }

    /** Makes the legend only when there is none; a second call changes nothing. */
    method CreateLegend()
      modifies this
      ensures element == if old(element).Some? then old(element) else Some(Blank)
    {
      if element.None? {
        element := Some(Blank);
      }
    }

    /** The crosshair-move callback of `chart`: without a legend nothing
      happens; at a valid crosshair point the legend shows the chart's
      symbol and the series it has, otherwise it is emptied. */
    method UpdateLegend(param: Option<CrosshairParam>, chart: Chart)
      modifies this
      ensures old(element).None? ==> element.None?
      ensures old(element).Some? && !ValidCrosshairPoint(param) ==> element == Some(Blank)
      ensures old(element).Some? && ValidCrosshairPoint(param) ==>
        element == Some(Filled(ShownSymbol(chart.symbol), chart.candlestickSeries.Some?,
                               chart.volumeSeries.Some?, Titles(chart.lineSeries)))
    {
      if element.None? {
        return;
      }
      var validCrosshairPoint := ValidCrosshairPoint(param);
      if validCrosshairPoint {
        element := Some(Filled(ShownSymbol(chart.symbol), chart.candlestickSeries.Some?,
                               chart.volumeSeries.Some?, Titles(chart.lineSeries)));
      } else {
        element := Some(Blank);
      }
    }

    /** Removes the legend if there is one. */
    method RemoveLegend()
      modifies this
      ensures element.None?
    {
      if element.Some? {
        element := None;
      }
    }
  }

  class Chart {
    const containerId: string
    const legend: Legend
    var chart: Option<LibChart>
    var candlestickSeries: Option<CandleSeries>
    var lineSeries: seq<LineSeries>
    var volumeSeries: Option<VolumeSeries>
    var symbol: Option<string>

    ghost predicate Valid()
      reads this
    {
      SlotsValid(chart, candlestickSeries, volumeSeries, lineSeries)
    }

    predicate Created()
      reads this
    {
      chart.Some?
    }

    /** The handle of the candlestick series, `None` for `null`. */
    function CandleHandle(): Option<nat>
      reads this
    {
      if candlestickSeries.Some? then Some(candlestickSeries.value.handle) else None
    }

    constructor(containerId: string)
      ensures Valid()
      ensures this.containerId == containerId && chart.None? && symbol.None?
      ensures candlestickSeries.None? && volumeSeries.None? && lineSeries == []
      ensures fresh(legend) && legend.containerId == containerId && legend.element.None?
    {
      this.containerId := containerId;
      chart := None;
      candlestickSeries := None;
      lineSeries := [];
      volumeSeries := None;
      symbol := None;
      legend := new Legend(containerId);
    }

    /** Makes the library chart only when there is none yet, and then
        subscribes this chart to the crosshair manager (which creates its
        legend); a second call changes nothing. */
    method CreateChart(width: int, height: int, chartOptions: ChartOptions, manager: CrosshairManager)
      requires Valid()
      modifies this, legend, manager
      ensures Valid() && Created()
      ensures old(chart).Some? ==>
        chart == old(chart) && manager.charts == old(manager.charts) && legend.element == old(legend.element)
      ensures old(chart).None? ==>
        && chart == Some(NewLibChart(width, height, chartOptions))
        && manager.charts == old(manager.charts) + [this]
        && legend.element == (if old(legend.element).Some? then old(legend.element) else Some(Blank))
      ensures candlestickSeries == old(candlestickSeries) && volumeSeries == old(volumeSeries)
      ensures lineSeries == old(lineSeries) && symbol == old(symbol)
    {
      if chart.None? {
        chart := Some(NewLibChart(width, height, chartOptions));
        manager.SubscribeChart(this);
      }
    }

    /** Keeps the existing candlestick series if there is one and otherwise
        adds a new one; then records the symbol and sets the series' data. */
    method AddCandlestickSeries(symbol: string, data: seq<Bar>)
      requires Valid() && Created()
      modifies this
      ensures Valid() && Created()
      ensures candlestickSeries.Some? && candlestickSeries.value.data == data
      ensures old(candlestickSeries).Some? ==>
        candlestickSeries.value.handle == old(candlestickSeries.value.handle) && chart == old(chart)
      ensures old(candlestickSeries).None? ==>
        candlestickSeries.value.handle == old(chart.value.nextSeries) && chart == Some(AttachSeries(old(chart.value)))
      ensures this.symbol == Some(symbol)
      ensures volumeSeries == old(volumeSeries) && lineSeries == old(lineSeries)
    {
      if candlestickSeries.None? {
        var c := chart.value;
        candlestickSeries := Some(CandleSeries(c.nextSeries, []));
        chart := Some(AttachSeries(c));
      }
      this.symbol := Some(symbol);
      candlestickSeries := Some(candlestickSeries.value.(data := data));
    }

    /** Removes the candlestick series if there is one. */
    method RemoveCandlestickSeries()
      requires Valid()
      modifies this
      ensures Valid()
      ensures candlestickSeries.None?
      ensures old(candlestickSeries).Some? ==>
        chart == Some(DetachSeries(old(chart.value), {old(candlestickSeries.value.handle)}))
      ensures old(candlestickSeries).None? ==> chart == old(chart)
      ensures volumeSeries == old(volumeSeries) && lineSeries == old(lineSeries) && symbol == old(symbol)
    {
      if candlestickSeries.Some? {
        var seriesToRemove := candlestickSeries.value;
        chart := Some(DetachSeries(chart.value, {seriesToRemove.handle}));
        candlestickSeries := None;
      }
    }

    /** Replaces any volume series by a new histogram series whose points
        are the volume projection of `data`. */
    method AddVolumeSeries(data: seq<Bar>, valueName: string)
      requires Valid() && Created()
      modifies this
      ensures Valid() && Created()
      ensures volumeSeries == Some(VolumeSeries(old(chart.value.nextSeries), VolumeProjection(data, valueName)))
      ensures old(volumeSeries).Some? ==>
        chart == Some(AttachSeries(DetachSeries(old(chart.value), {old(volumeSeries.value.handle)})))
      ensures old(volumeSeries).None? ==> chart == Some(AttachSeries(old(chart.value)))
      ensures candlestickSeries == old(candlestickSeries) && lineSeries == old(lineSeries) && symbol == old(symbol)
    {
      RemoveVolumeSeries();
      var c := chart.value;
      volumeSeries := Some(VolumeSeries(c.nextSeries, VolumeProjection(data, valueName)));
      chart := Some(AttachSeries(c));
    }

    /** Removes the volume series if there is one. */
    method RemoveVolumeSeries()
      requires Valid()
      modifies this
      ensures Valid()
      ensures volumeSeries.None?
      ensures old(volumeSeries).Some? ==>
        chart == Some(DetachSeries(old(chart.value), {old(volumeSeries.value.handle)}))
      ensures old(volumeSeries).None? ==> chart == old(chart)
      ensures candlestickSeries == old(candlestickSeries) && lineSeries == old(lineSeries) && symbol == old(symbol)
    {
      if volumeSeries.Some? {
        chart := Some(DetachSeries(chart.value, {volumeSeries.value.handle}));
        volumeSeries := None;
      }
    }

    /** Appends one new line series titled `title`, with the default options
        overridden key by key by `lineStyleOptions`, whose points are the
        `valueName` field of each bar. */
    method AddLineSeries(data: seq<Bar>, valueName: string, title: string, lineStyleOptions: Options)
      requires Valid() && Created()
      modifies this
      ensures Valid() && Created()
      ensures lineSeries == old(lineSeries) + [LineSeries(old(chart.value.nextSeries), title,
        MergeOptions(DefaultLineOptions(), lineStyleOptions), LineProjection(data, valueName))]
      ensures chart == Some(AttachSeries(old(chart.value)))
      ensures candlestickSeries == old(candlestickSeries) && volumeSeries == old(volumeSeries) && symbol == old(symbol)
    {
      var defaultOptions := DefaultLineOptions();
      var options := MergeOptions(defaultOptions, lineStyleOptions);
      var c := chart.value;
      var series := LineSeries(c.nextSeries, title, options, LineProjection(data, valueName));
      LineHandlesAppend(lineSeries, series);
      chart := Some(AttachSeries(c));
      lineSeries := lineSeries + [series];
    }

    /** Removes every line series from the library chart, one by one, and
        empties the list. */
    method RemoveAllLineSeries()
      requires Valid()
      modifies this
      ensures Valid()
      ensures lineSeries == []
      ensures old(chart).Some? ==> chart == Some(DetachSeries(old(chart.value), LineHandles(old(lineSeries))))
      ensures old(chart).None? ==> chart == old(chart)
      ensures candlestickSeries == old(candlestickSeries) && volumeSeries == old(volumeSeries) && symbol == old(symbol)
    {
      if chart.Some? {
        var c := chart.value;
        var i := 0;
        while i < |lineSeries|
          invariant 0 <= i <= |lineSeries| && lineSeries == old(lineSeries)
          invariant chart.Some? && chart.value == DetachSeries(c, LineHandles(lineSeries[..i]))
          invariant candlestickSeries == old(candlestickSeries) && volumeSeries == old(volumeSeries) && symbol == old(symbol)
        {
          LineHandlesAppend(lineSeries[..i], lineSeries[i]);
          assert lineSeries[..i + 1] == lineSeries[..i] + [lineSeries[i]];
          chart := Some(DetachSeries(chart.value, {lineSeries[i].handle}));
          i := i + 1;
        }
        assert lineSeries[..i] == lineSeries;
      }
      lineSeries := [];
    }

    /** Removes the first line series titled `title`, if there is one; the
        others stay, in order. */
    method RemoveLineSeries(title: string)
      requires Valid()
      modifies this
      ensures Valid()
      ensures FirstTitled(old(lineSeries), title).None? ==>
        lineSeries == old(lineSeries) && chart == old(chart)
      ensures FirstTitled(old(lineSeries), title).Some? ==>
        var i := FirstTitled(old(lineSeries), title).value;
        && lineSeries == Seqs.RemoveAt(old(lineSeries), i)
        && chart == Some(DetachSeries(old(chart.value), {old(lineSeries)[i].handle}))
      ensures candlestickSeries == old(candlestickSeries) && volumeSeries == old(volumeSeries) && symbol == old(symbol)
    {
      var found := FirstTitled(lineSeries, title);
      if found.Some? {
        var lineSeriesToRemove := lineSeries[found.value];
        var index := Seqs.IndexOf(lineSeries, lineSeriesToRemove);
        assert index == found.value;
        assert chart.Some? by {
          assert lineSeriesToRemove.handle in LineHandles(lineSeries);
        }
        RemoveLineKeepsSlots(chart.value, candlestickSeries, volumeSeries, lineSeries, index);
        chart := Some(DetachSeries(chart.value, {lineSeriesToRemove.handle}));
        lineSeries := Seqs.RemoveAt(lineSeries, index);
      }
    }
  }

  /** The page's single `window.CrosshairManager`: the charts whose time
      scales and crosshairs are kept in step. */
  class CrosshairManager {
    var charts: seq<Chart>

    constructor()
      ensures charts == []
    {
      charts := [];
    }

    /** Appends `chart` and creates its legend. */
    method SubscribeChart(chart: Chart)
      modifies this, chart.legend
      ensures charts == old(charts) + [chart]
      ensures chart.legend.element == if old(chart.legend.element).Some? then old(chart.legend.element) else Some(Blank)
    {
      charts := charts + [chart];
      chart.legend.CreateLegend();
    }

    /** Drops every occurrence of `chart`; the other charts keep their order. */
    method UnsubscribeChart(chart: Chart)
      modifies this
      ensures charts == Seqs.Without(old(charts), chart)
      ensures chart !in charts
    {
      charts := Seqs.Without(charts, chart);
    }
  }

  /** No two sub-charts share a container id. */
  predicate UniqueIds(subCharts: seq<Chart>) {
    forall i, j :: 0 <= i < j < |subCharts| ==> subCharts[i].containerId != subCharts[j].containerId
  }

  /** The position of the first sub-chart whose container is `id`. */
  function FindById(subCharts: seq<Chart>, id: string): (r: Option<nat>)
    ensures r.None? <==> forall k :: 0 <= k < |subCharts| ==> subCharts[k].containerId != id
    ensures r.Some? ==> r.value < |subCharts| && subCharts[r.value].containerId == id
    ensures r.Some? ==> forall k :: 0 <= k < r.value ==> subCharts[k].containerId != id
  {
    if subCharts == [] then None
    else if subCharts[0].containerId == id then Some(0)
    else
      var r := FindById(subCharts[1..], id);
      if r.Some? then Some(r.value + 1) else None
  }

  /** Distinct container ids mean distinct charts. */
  lemma UniqueIdsDistinct(subCharts: seq<Chart>)
    requires UniqueIds(subCharts)
    ensures Seqs.Distinct(subCharts)
  {
  }

  /** Removing a sub-chart keeps container ids unique. */
  lemma RemoveAtUniqueIds(subCharts: seq<Chart>, i: nat)
    requires i < |subCharts| && UniqueIds(subCharts)
    ensures UniqueIds(Seqs.RemoveAt(subCharts, i))
  {
    var r := Seqs.RemoveAt(subCharts, i);
    forall a, b | 0 <= a < b < |r| ensures r[a].containerId != r[b].containerId {
      var a' := if a < i then a else a + 1;
      var b' := if b < i then b else b + 1;
      assert r[a] == subCharts[a'] && r[b] == subCharts[b'];
    }
  }

  class ParentChart {
    const main: Chart
    var subCharts: seq<Chart>

    ghost predicate Valid()
      reads this
    {
      UniqueIds(subCharts)
    }

    /** `new ParentChart(id, width, height)`: the main chart, created with
        `MainchartOptions` and subscribed to the crosshair manager. */
    constructor(containerId: string, width: int, height: int, manager: CrosshairManager)
      modifies manager
      ensures Valid() && subCharts == []
      ensures fresh(main) && fresh(main.legend) && main.containerId == containerId && main.Valid()
      ensures main.chart == Some(NewLibChart(width, height, MainchartOptions))
      ensures main.candlestickSeries.None? && main.volumeSeries.None? && main.lineSeries == [] && main.symbol.None?
      ensures main.legend.element == Some(Blank)
      ensures manager.charts == old(manager.charts) + [main]
    {
      var m := new Chart(containerId);
      m.CreateChart(width, height, MainchartOptions, manager);
      main := m;
      subCharts := [];
    }

    /** Returns the sub-chart whose container is `subChartContainerId` if
        there is one, changing nothing; otherwise creates one with
        `SubchartOptions`, appends it and returns it. */
    method AddSubChart(subChartContainerId: string, width: int, height: int, manager: CrosshairManager)
      returns (subChart: Chart)
      requires Valid()
      modifies this, manager
      ensures Valid()
      ensures FindById(old(subCharts), subChartContainerId).Some? ==>
        && subChart == old(subCharts)[FindById(old(subCharts), subChartContainerId).value]
        && subCharts == old(subCharts) && manager.charts == old(manager.charts)
      ensures FindById(old(subCharts), subChartContainerId).None? ==>
        && fresh(subChart) && fresh(subChart.legend) && subChart.containerId == subChartContainerId
        && subCharts == old(subCharts) + [subChart]
        && subChart.Valid() && subChart.chart == Some(NewLibChart(width, height, SubchartOptions))
        && subChart.candlestickSeries.None? && subChart.volumeSeries.None? && subChart.lineSeries == []
        && subChart.symbol.None?
        && subChart.legend.element == Some(Blank)
        && manager.charts == old(manager.charts) + [subChart]
      ensures subChart.containerId == subChartContainerId
    {
      var existing := FindById(subCharts, subChartContainerId);
      if existing.None? {
        subChart := new Chart(subChartContainerId);
        subChart.CreateChart(width, height, SubchartOptions, manager);
        subCharts := subCharts + [subChart];
        return;
      }
      subChart := subCharts[existing.value];
    }

    /** Removes `subChart` from the list when it is there; otherwise nothing
        changes.  The crosshair manager keeps its reference either way. */
    method RemoveSubChart(subChart: Chart)
      requires Valid()
      modifies this
      ensures Valid()
      ensures subChart in old(subCharts) ==>
        subCharts == Seqs.RemoveAt(old(subCharts), Seqs.IndexOf(old(subCharts), subChart)) && subChart !in subCharts
      ensures subChart !in old(subCharts) ==> subCharts == old(subCharts)
    {
      if subChart in subCharts {
        var index := Seqs.IndexOf(subCharts, subChart);
        UniqueIdsDistinct(subCharts);
        Seqs.RemoveAtDistinct(subCharts, index);
        RemoveAtUniqueIds(subCharts, index);
        subCharts := Seqs.RemoveAt(subCharts, index);
      }
    }
  }

  /** JavaScript truthiness of `param.time`: absent and 0 are falsy. */
  predicate HasTime(param: CrosshairParam) {
    param.time.Some? && param.time.value != 0
  }

  /** The data point of `series` under the crosshair: `null` when the
      crosshair has no time or the series has no data there (or there is no
      series). */
  function GetCrosshairDataPoint(series: Option<nat>, param: CrosshairParam): (r: Option<DataPoint>)
    ensures r.Some? <==> HasTime(param) && series.Some? && series.value in param.seriesData
    ensures r.Some? ==> r.value == param.seriesData[series.value]
  {
    if !HasTime(param) then None
    else if series.Some? && series.value in param.seriesData then Some(param.seriesData[series.value])
    else None
  }

  /** Puts `chart`'s crosshair on `dataPoint` of `series`, or clears it when
      there is no data point. */
  method SyncCrosshair(chart: Chart, series: Option<nat>, dataPoint: Option<DataPoint>, param: CrosshairParam)
    requires chart.Valid() && chart.Created()
    modifies chart
    ensures chart.Valid() && chart.Created()
    ensures chart.chart == Some(old(chart.chart.value).(crosshair :=
      if dataPoint.Some? then Positioned(dataPoint.value.value, dataPoint.value.time, series) else Cleared))
    ensures chart.candlestickSeries == old(chart.candlestickSeries) && chart.volumeSeries == old(chart.volumeSeries)
    ensures chart.lineSeries == old(chart.lineSeries) && chart.symbol == old(chart.symbol)
  {
    if dataPoint.Some? {
      chart.chart := Some(chart.chart.value.(crosshair := Positioned(dataPoint.value.value, dataPoint.value.time, series)));
      return;
    }
    chart.chart := Some(chart.chart.value.(crosshair := Cleared));
  }

  /** The crosshair-move callback that `syncChartsCrosshairMove` installs on
      `source` for `target`: the target's crosshair goes to the source
      candlestick series' data point at the crosshair time, on the target's
      candlestick series, and is cleared when there is no such point. */
  method OnCrosshairMove(source: Chart, target: Chart, param: CrosshairParam)
    requires target.Valid() && target.Created()
    modifies target
    ensures target.Valid() && target.Created()
    ensures
      var dataPoint := GetCrosshairDataPoint(old(source.CandleHandle()), param);
      dataPoint.Some? <==> HasTime(param) && old(source.candlestickSeries).Some?
                           && old(source.candlestickSeries.value.handle) in param.seriesData
    ensures
      var dataPoint := GetCrosshairDataPoint(old(source.CandleHandle()), param);
      target.chart == Some(old(target.chart.value).(crosshair :=
        if dataPoint.Some? then Positioned(dataPoint.value.value, dataPoint.value.time, old(target.CandleHandle()))
        else Cleared))
    ensures target.candlestickSeries == old(target.candlestickSeries) && target.lineSeries == old(target.lineSeries)
    ensures target.volumeSeries == old(target.volumeSeries) && target.symbol == old(target.symbol)
  {
    var dataPoint := GetCrosshairDataPoint(source.CandleHandle(), param);
    SyncCrosshair(target, target.CandleHandle(), dataPoint, param);
  }
}
