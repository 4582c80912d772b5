/** The page script of the first widget version: a single `Chart` class
    whose legend is a field of the chart itself, whose candlestick series
    is always replaced, whose `removeLineSeries` removes every line series,
    and which builds a whole chart in one call, `createCandlestickChartWithData`. */
module LegacyPage {
  import opened Wrappers
  import opened Bars
  import opened PageData

  /** The options `createChart` writes inline: zero price scale margins. */
  const LegacyChartOptions := ChartOptions(0.0, 0.0)

  /** The fixed line options `createCandlestickChartWithData` passes. */
  function PresetLineOptions(): Options {
    map["color" := Str("#ffffffaa"), "lineWidth" := Num(1)]
  }

  /** The preset agrees with the defaults, so both preset lines get exactly
      the default options. */
  lemma PresetLineOptionsAreDefaults()
    ensures MergeOptions(DefaultLineOptions(), PresetLineOptions()) == DefaultLineOptions()
  {
    MergeWithDefaultsAgreeing(DefaultLineOptions(), PresetLineOptions());
  }

  class Chart {
    const containerId: string
    var chart: Option<LibChart>
    var candlestickSeries: Option<CandleSeries>
    var lineSeries: seq<LineSeries>
    var volumeSeries: Option<VolumeSeries>
    /** The legend `div` and what it shows; `None` for `null`. */
    var legend: Option<LegendText>
    var symbol: Option<string>

    ghost predicate Valid()
      reads this
    {
      SlotsValid(chart, candlestickSeries, volumeSeries, lineSeries)
    }

    predicate Created()
      reads this
    {
      chart.Some?
    }

    /** `new window.Chart(id)`. */
    constructor(containerId: string)
      ensures Valid()
      ensures this.containerId == containerId && chart.None? && legend.None? && symbol.None?
      ensures candlestickSeries.None? && volumeSeries.None? && lineSeries == []
    {
      this.containerId := containerId;
      chart := None;
      candlestickSeries := None;
      lineSeries := [];
      volumeSeries := None;
      legend := None;
      symbol := None;
    }

    /** Makes the library chart only when there is none; a second call
        changes nothing. */
    method CreateChart(width: int, height: int)
      requires Valid()
      modifies this
      ensures Valid() && Created()
      ensures chart == if old(chart).Some? then old(chart) else Some(NewLibChart(width, height, LegacyChartOptions))
      ensures candlestickSeries == old(candlestickSeries) && volumeSeries == old(volumeSeries)
      ensures lineSeries == old(lineSeries) && legend == old(legend) && symbol == old(symbol)
    {
      if chart.None? {
        chart := Some(NewLibChart(width, height, LegacyChartOptions));
      }
    }

    /** Always removes any candlestick series and adds a new one carrying
        `data`, after recording the symbol. */
    method AddCandlestickSeries(symbol: string, data: seq<Bar>)
      requires Valid() && Created()
      modifies this
      ensures Valid() && Created()
      ensures candlestickSeries == Some(CandleSeries(old(chart.value.nextSeries), data))
      ensures old(candlestickSeries).Some? ==>
        chart == Some(AttachSeries(DetachSeries(old(chart.value), {old(candlestickSeries.value.handle)})))
      ensures old(candlestickSeries).None? ==> chart == Some(AttachSeries(old(chart.value)))
      ensures this.symbol == Some(symbol)
      ensures volumeSeries == old(volumeSeries) && lineSeries == old(lineSeries) && legend == old(legend)
    {
      RemoveCandlestickSeries();
      this.symbol := Some(symbol);
      var c := chart.value;
      candlestickSeries := Some(CandleSeries(c.nextSeries, []));
      chart := Some(AttachSeries(c));
      candlestickSeries := Some(candlestickSeries.value.(data := data));
    }

    /** Removes the candlestick series if there is one. */
    method RemoveCandlestickSeries()
      requires Valid()
      modifies this
      ensures Valid()
      ensures candlestickSeries.None?
      ensures old(candlestickSeries).Some? ==>
        chart == Some(DetachSeries(old(chart.value), {old(candlestickSeries.value.handle)}))
      ensures old(candlestickSeries).None? ==> chart == old(chart)
      ensures volumeSeries == old(volumeSeries) && lineSeries == old(lineSeries)
      ensures legend == old(legend) && symbol == old(symbol)
    {
      if candlestickSeries.Some? {
        chart := Some(DetachSeries(chart.value, {candlestickSeries.value.handle}));
        candlestickSeries := None;
      }
    }

    /** Replaces any volume series by a new histogram series whose points
        are the volume projection of `data`. */
    method AddVolumeSeries(data: seq<Bar>, valueName: string)
      requires Valid() && Created()
      modifies this
      ensures Valid() && Created()
      ensures volumeSeries == Some(VolumeSeries(old(chart.value.nextSeries), VolumeProjection(data, valueName)))
      ensures old(volumeSeries).Some? ==>
        chart == Some(AttachSeries(DetachSeries(old(chart.value), {old(volumeSeries.value.handle)})))
      ensures old(volumeSeries).None? ==> chart == Some(AttachSeries(old(chart.value)))
      ensures candlestickSeries == old(candlestickSeries) && lineSeries == old(lineSeries)
      ensures legend == old(legend) && symbol == old(symbol)
    {
      RemoveVolumeSeries();
      var c := chart.value;
      volumeSeries := Some(VolumeSeries(c.nextSeries, VolumeProjection(data, valueName)));
      chart := Some(AttachSeries(c));
    }

    /** Removes the volume series if there is one. */
    method RemoveVolumeSeries()
      requires Valid()
      modifies this
      ensures Valid()
      ensures volumeSeries.None?
      ensures old(volumeSeries).Some? ==>
        chart == Some(DetachSeries(old(chart.value), {old(volumeSeries.value.handle)}))
      ensures old(volumeSeries).None? ==> chart == old(chart)
      ensures candlestickSeries == old(candlestickSeries) && lineSeries == old(lineSeries)
      ensures legend == old(legend) && symbol == old(symbol)
    {
      if volumeSeries.Some? {
        chart := Some(DetachSeries(chart.value, {volumeSeries.value.handle}));
        volumeSeries := None;
      }
    }

    /** Appends one new line series titled `title`, with the default options
        overridden key by key by `lineStyleOptions`, whose points are the
        `valueName` field of each bar. */
    method AddLineSeries(lineStyleOptions: Options, data: seq<Bar>, valueName: string, title: string)
      requires Valid() && Created()
      modifies this
      ensures Valid() && Created()
      ensures lineSeries == old(lineSeries) + [LineSeries(old(chart.value.nextSeries), title,
        MergeOptions(DefaultLineOptions(), lineStyleOptions), LineProjection(data, valueName))]
      ensures chart == Some(AttachSeries(old(chart.value)))
      ensures candlestickSeries == old(candlestickSeries) && volumeSeries == old(volumeSeries)
      ensures legend == old(legend) && symbol == old(symbol)
    {
      var defaultOptions := DefaultLineOptions();
      var options := MergeOptions(defaultOptions, lineStyleOptions);
      var c := chart.value;
      var series := LineSeries(c.nextSeries, title, options, LineProjection(data, valueName));
      LineHandlesAppend(lineSeries, series);
      chart := Some(AttachSeries(c));
      lineSeries := lineSeries + [series];
    }

    /** Removes every line series from the library chart, one by one, and
        empties the list. */
    method RemoveLineSeries()
      requires Valid()
      modifies this
      ensures Valid()
      ensures lineSeries == []
      ensures old(chart).Some? ==> chart == Some(DetachSeries(old(chart.value), LineHandles(old(lineSeries))))
      ensures old(chart).None? ==> chart == old(chart)
      ensures candlestickSeries == old(candlestickSeries) && volumeSeries == old(volumeSeries)
      ensures legend == old(legend) && symbol == old(symbol)
    {
      if chart.Some? {
        var c := chart.value;
        var i := 0;
        while i < |lineSeries|
          invariant 0 <= i <= |lineSeries| && lineSeries == old(lineSeries)
          invariant chart.Some? && chart.value == DetachSeries(c, LineHandles(lineSeries[..i]))
          invariant candlestickSeries == old(candlestickSeries) && volumeSeries == old(volumeSeries)
          invariant legend == old(legend) && symbol == old(symbol)
        {
          LineHandlesAppend(lineSeries[..i], lineSeries[i]);
          assert lineSeries[..i + 1] == lineSeries[..i] + [lineSeries[i]];
          chart := Some(DetachSeries(chart.value, {lineSeries[i].handle}));
          i := i + 1;
        }
        assert lineSeries[..i] == lineSeries;
      }
      lineSeries := [];
    }

    /** Makes the legend only when there is none; a second call changes nothing. */
    method CreateLegend()
      modifies this
      ensures legend == if old(legend).Some? then old(legend) else Some(Blank)
      ensures chart == old(chart) && candlestickSeries == old(candlestickSeries) && volumeSeries == old(volumeSeries)
      ensures lineSeries == old(lineSeries) && symbol == old(symbol)
    {
      if legend.None? {
        legend := Some(Blank);
      }
    }

    /** The crosshair-move callback: without a legend nothing happens; at a
        valid crosshair point the legend shows the symbol (printed even when
        it is `null`), the candlestick and volume values and every line
        series' title; otherwise it is emptied.  The valid-point branch reads
        both series' data unguarded, so it assumes both series exist, as
        `CreateCandlestickChartWithData` ensures before it makes the legend;
        with either missing the script throws and the legend keeps its old
        content, which is not modelled. */
    method UpdateLegend(param: Option<CrosshairParam>)
      modifies this
      ensures old(legend).None? ==> legend.None?
      ensures old(legend).Some? && !ValidCrosshairPoint(param) ==> legend == Some(Blank)
      ensures old(legend).Some? && ValidCrosshairPoint(param) ==>
        legend == Some(Filled(symbol, true, true, Titles(lineSeries)))
      ensures chart == old(chart) && candlestickSeries == old(candlestickSeries) && volumeSeries == old(volumeSeries)
      ensures lineSeries == old(lineSeries) && symbol == old(symbol)
    {
      if legend.None? {
        return;
      }
      var validCrosshairPoint := ValidCrosshairPoint(param);
      if validCrosshairPoint {
        legend := Some(Filled(symbol, true, true, Titles(lineSeries)));
      } else {
        legend := Some(Blank);
      }
    }

    /** Removes the legend if there is one. */
    method RemoveLegend()
      modifies this
      ensures legend.None?
      ensures chart == old(chart) && candlestickSeries == old(candlestickSeries) && volumeSeries == old(volumeSeries)
      ensures lineSeries == old(lineSeries) && symbol == old(symbol)
    {
      if legend.Some? {
        legend := None;
      }
    }

    /** Builds the whole chart: the library chart if there is none, a new
        candlestick series with `data`, a volume series over its `volume`
        field, exactly the two line series `Line1` (close) and `Line2`
        (open) in that order, and a fresh, empty legend. */
    method CreateCandlestickChartWithData(width: int, height: int, symbol: string, data: seq<Bar>)
      requires Valid()
      modifies this
      ensures Valid() && Created()
      ensures old(chart).Some? ==>
        chart.value.width == old(chart.value.width) && chart.value.height == old(chart.value.height)
      ensures old(chart).None? ==> chart.value.width == width && chart.value.height == height
      ensures chart.value.options == (if old(chart).Some? then old(chart.value.options) else LegacyChartOptions)
      ensures chart.value.crosshair == (if old(chart).Some? then old(chart.value.crosshair) else Cleared)
      ensures candlestickSeries.Some? && candlestickSeries.value.data == data
      ensures volumeSeries.Some? && volumeSeries.value.data == VolumeProjection(data, "volume")
      ensures |lineSeries| == 2
      ensures lineSeries[0].title == "Line1" && lineSeries[0].data == LineProjection(data, "close")
      ensures lineSeries[1].title == "Line2" && lineSeries[1].data == LineProjection(data, "open")
      ensures lineSeries[0].options == DefaultLineOptions() && lineSeries[1].options == DefaultLineOptions()
      ensures this.symbol == Some(symbol)
      ensures legend == Some(Blank)
      ensures chart.value.attached == {candlestickSeries.value.handle, volumeSeries.value.handle,
                                       lineSeries[0].handle, lineSeries[1].handle}
    {
      CreateChart(width, height);
      AddCandlestickSeries(symbol, data);
      AddVolumeSeries(data, "volume");
      RemoveLineSeries();
      AddLineSeries(PresetLineOptions(), data, "close", "Line1");
      AddLineSeries(PresetLineOptions(), data, "open", "Line2");
      PresetLineOptionsAreDefaults();
      RemoveLegend();
      CreateLegend();
      assert LineHandles(lineSeries) == {lineSeries[0].handle, lineSeries[1].handle} by {
        assert lineSeries == [lineSeries[0], lineSeries[1]];
      }
    }
  }
}
