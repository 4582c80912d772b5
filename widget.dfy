/** The packaged `ChartWidget`: it keeps the ids of the sub-charts it has
    created, remembers the symbol and the formatted bars of the last main
    candlestick series, and submits one script per operation.  `log` holds
    the submitted scripts as commands, oldest first.  `zoneOffset` is the
    UTC offset of the fixed target zone (Asia/Kolkata in the source) at each
    instant. */
module Widget {
  import opened Wrappers
  import opened Bars
  import opened Commands
  import Seqs

  /** Every sub-chart id is this prefix followed by a fresh hex token. */
  const SubChartPrefix: string := "sub_chart_"

  class ChartWidget {
    const zoneOffset: int -> int
    var subCharts: seq<string>
    var log: seq<Command>
    var width: Option<int>
    var height: Option<int>
    var data: Option<seq<Row>>
    var symbol: Option<string>
    var jsData: Option<seq<Bar>>

    /** Sub-chart ids are distinct and well formed; the stored attributes
        are assigned together, and `jsData` is always the formatted `data`. */
    ghost predicate Valid()
      reads this
    {
      && Seqs.Distinct(subCharts)
      && (forall i :: 0 <= i < |subCharts| ==> SubChartPrefix <= subCharts[i])
      && width.Some? == height.Some? == data.Some? == symbol.Some? == jsData.Some?
      && (data.Some? ==> jsData == Some(Converted(data.value, zoneOffset)))
    }

    constructor(zoneOffset: int -> int)
      ensures Valid() && this.zoneOffset == zoneOffset
      ensures subCharts == [] && log == []
      ensures width.None? && height.None? && data.None? && symbol.None? && jsData.None?
    {
      this.zoneOffset := zoneOffset;
      subCharts := [];
      log := [];
      width, height, data, symbol, jsData := None, None, None, None, None;
    }

    /** The page has loaded: construct the main chart, 800 by 600. */
    method OnPageLoadFinished()
      modifies this`log
      ensures log == old(log) + [ConstructParentChart("main-chart", 800, 600)]
    {
      log := log + [ConstructParentChart("main-chart", 800, 600)];
    }

    /** Records the view size, the symbol, the rows and their formatted bars,
        and sends the bars to the main chart's candlestick series. */
    method MainAddCandlestickSeries(symbol: string, data: seq<Row>, viewWidth: int, viewHeight: int)
      requires Valid()
      modifies this
      ensures Valid()
      ensures width == Some(viewWidth) && height == Some(viewHeight)
      ensures this.data == Some(data) && this.symbol == Some(symbol)
      ensures jsData == Some(Converted(data, zoneOffset))
      ensures log == old(log) + [AddCandlestick(MainChart, symbol, Converted(data, zoneOffset))]
      ensures subCharts == old(subCharts)
    {
      width := Some(viewWidth);
      height := Some(viewHeight);
      this.data := Some(data);
      this.symbol := Some(symbol);
      var converted := ConvertDataToJsFormat(data, zoneOffset);
      jsData := Some(converted);
      log := log + [AddCandlestick(MainChart, symbol, converted)];
    }

    method MainRemoveCandlestickSeries()
      modifies this`log
      ensures log == old(log) + [RemoveCandlestick(MainChart)]
    {
      log := log + [RemoveCandlestick(MainChart)];
    }

    /** Sends the stored bars to the main chart as a volume series; before
        any main candlestick series the stored bars do not exist and the
        call raises without submitting anything. */
    method MainAddVolumeSeries() returns (outcome: Outcome)
      requires Valid()
      modifies this`log
      ensures old(jsData).None? ==> outcome == Raised(AttributeError("js_data")) && log == old(log)
      ensures old(jsData).Some? ==>
        outcome == Done && log == old(log) + [AddVolume(MainChart, jsData.value, "volume", CandleMarginsWithVolume, VolumeMargins)]
    {
      if jsData.None? {
        return Raised(AttributeError("js_data"));
      }
      log := log + [AddVolume(MainChart, jsData.value, "volume", CandleMarginsWithVolume, VolumeMargins)];
      outcome := Done;
    }

    method MainRemoveVolumeSeries()
      modifies this`log
      ensures log == old(log) + [RemoveVolume(MainChart, CandleMarginsAlone)]
    {
      log := log + [RemoveVolume(MainChart, CandleMarginsAlone)];
    }

    /** Formats `data` afresh (the stored bars are not used) and sends a line
        series over its `valueName` field with the options of `params`. */
    method MainAddLineSeries(data: seq<Row>, valueName: string, title: string, params: LineParams)
      modifies this`log
      ensures log == old(log) + [AddLine(MainChart, Converted(data, zoneOffset), valueName, title, LineOptionsOf(params))]
    {
      var converted := ConvertDataToJsFormat(data, zoneOffset);
      log := log + [AddLine(MainChart, converted, valueName, title, LineOptionsOf(params))];
    }

    method MainRemoveLineSeries(title: string)
      modifies this`log
      ensures log == old(log) + [RemoveLine(MainChart, title)]
    {
      log := log + [RemoveLine(MainChart, title)];
    }

    /** Creates a sub-chart named `sub_chart_` followed by `hex` (in the
        source a fresh UUID in hex, so the id is new), appends the id and
        returns it.  The size is the one stored by the last main
        candlestick call. */
    method AddSubChart(hex: string) returns (subchartId: string)
      requires Valid() && SubChartPrefix + hex !in subCharts
      modifies this`log, this`subCharts
      ensures Valid()
      ensures subchartId == SubChartPrefix + hex
      ensures subCharts == old(subCharts) + [subchartId]
      ensures log == old(log) + [AddSubChartCommand(subchartId, width, height)]
    {
      subchartId := SubChartPrefix + hex;
      log := log + [AddSubChartCommand(subchartId, width, height)];
      subCharts := subCharts + [subchartId];
    }

    /** Removes a known sub-chart id (its first and only occurrence) and
        tears the sub-chart down; an unknown id changes nothing and submits
        nothing, so removing the same id twice is harmless. */
    method RemoveSubChart(subchartId: string)
      requires Valid()
      modifies this`log, this`subCharts
      ensures Valid()
      ensures subchartId in old(subCharts) ==>
        && subCharts == Seqs.RemoveAt(old(subCharts), Seqs.IndexOf(old(subCharts), subchartId))
        && subchartId !in subCharts
        && log == old(log) + [RemoveSubChartCommand(subchartId)]
      ensures subchartId !in old(subCharts) ==> subCharts == old(subCharts) && log == old(log)
    {
      if subchartId in subCharts {
        var index := Seqs.IndexOf(subCharts, subchartId);
        Seqs.RemoveAtDistinct(subCharts, index);
        subCharts := Seqs.RemoveAt(subCharts, index);
        log := log + [RemoveSubChartCommand(subchartId)];
      }
    }

    /** Sends the stored symbol and bars to a sub-chart's candlestick series;
        raises before any main candlestick call.  The id is not checked
        against `subCharts`. */
    method SubAddCandlestickSeries(subchartId: string) returns (outcome: Outcome)
      requires Valid()
      modifies this`log
      ensures old(symbol).None? ==> outcome == Raised(AttributeError("symbol")) && log == old(log)
      ensures old(symbol).Some? ==>
        outcome == Done && log == old(log) + [AddCandlestick(SubChart(subchartId), symbol.value, jsData.value)]
    {
      if symbol.None? {
        return Raised(AttributeError("symbol"));
      }
      log := log + [AddCandlestick(SubChart(subchartId), symbol.value, jsData.value)];
      outcome := Done;
    }

    method SubRemoveCandlestickSeries(subchartId: string)
      modifies this`log
      ensures log == old(log) + [RemoveCandlestick(SubChart(subchartId))]
    {
      log := log + [RemoveCandlestick(SubChart(subchartId))];
    }

    /** Sends the stored bars to a sub-chart as a volume series; raises
        before any main candlestick call. */
    method SubAddVolumeSeries(subchartId: string) returns (outcome: Outcome)
      requires Valid()
      modifies this`log
      ensures old(jsData).None? ==> outcome == Raised(AttributeError("js_data")) && log == old(log)
      ensures old(jsData).Some? ==>
        outcome == Done && log == old(log) + [AddVolume(SubChart(subchartId), jsData.value, "volume", CandleMarginsWithVolume, VolumeMargins)]
    {
      if jsData.None? {
        return Raised(AttributeError("js_data"));
      }
      log := log + [AddVolume(SubChart(subchartId), jsData.value, "volume", CandleMarginsWithVolume, VolumeMargins)];
      outcome := Done;
    }

    method SubRemoveVolumeSeries(subchartId: string)
      modifies this`log
      ensures log == old(log) + [RemoveVolume(SubChart(subchartId), CandleMarginsAlone)]
    {
      log := log + [RemoveVolume(SubChart(subchartId), CandleMarginsAlone)];
    }

    method SubAddLineSeries(subchartId: string, data: seq<Row>, valueName: string, title: string, params: LineParams)
      modifies this`log
      ensures log == old(log) + [AddLine(SubChart(subchartId), Converted(data, zoneOffset), valueName, title, LineOptionsOf(params))]
    {
      var converted := ConvertDataToJsFormat(data, zoneOffset);
      log := log + [AddLine(SubChart(subchartId), converted, valueName, title, LineOptionsOf(params))];
    }

    method SubRemoveLineSeries(subchartId: string, title: string)
      modifies this`log
      ensures log == old(log) + [RemoveLine(SubChart(subchartId), title)]
    {
      log := log + [RemoveLine(SubChart(subchartId), title)];
    }
  }

  /** The window's first-in-first-out use of sub-chart ids, applied to the
      packaged widget: two sub-charts are created and the older one is
      removed; removing that id a second time submits nothing.  Only the
      newer id is left. */
  method TwoSubChartsThenRemoveOldest(zoneOffset: int -> int, rows: seq<Row>, hexA: string, hexB: string)
    returns (registry: seq<string>, removals: nat)
    requires hexA != hexB
    ensures registry == [SubChartPrefix + hexB]
    ensures removals == 1
  {
    var w := new ChartWidget(zoneOffset);
    w.OnPageLoadFinished();
    w.MainAddCandlestickSeries("SYM", rows, 800, 600);
    var a := w.AddSubChart(hexA);
    assert SubChartPrefix + hexA != SubChartPrefix + hexB by {
      assert (SubChartPrefix + hexA)[|SubChartPrefix|..] == hexA;
      assert (SubChartPrefix + hexB)[|SubChartPrefix|..] == hexB;
    }
    var b := w.AddSubChart(hexB);
    var before := |w.log|;
    w.RemoveSubChart(a);
    w.RemoveSubChart(a);
    registry := w.subCharts;
    removals := |w.log| - before;
  }
}
