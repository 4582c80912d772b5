/** The first `ChartWidget`: on page load it submits the page script it
    read at construction and then constructs the page's single chart; its
    one chart operation records the view size, the symbol and the data and
    submits the whole chart in one command. */
module LegacyWidget {
  import opened Wrappers
  import opened Bars
  import opened Commands

  class ChartWidget {
    /** The text of the page's `chart.js`, read when the widget is built. */
    const loadScript: string
    const zoneOffset: int -> int
    var log: seq<Command>
    var width: Option<int>
    var height: Option<int>
    var data: Option<seq<Row>>
    var symbol: Option<string>
    var jsData: Option<seq<Bar>>

    /** `jsData` is always the formatted `data`. */
    ghost predicate Valid()
      reads this
    {
      && data.Some? == jsData.Some?
      && (data.Some? ==> jsData == Some(Converted(data.value, zoneOffset)))
    }

    constructor(loadScript: string, zoneOffset: int -> int)
      ensures Valid() && this.loadScript == loadScript && this.zoneOffset == zoneOffset
      ensures log == [] && width.None? && height.None? && data.None? && symbol.None? && jsData.None?
    {
      this.loadScript := loadScript;
      this.zoneOffset := zoneOffset;
      log := [];
      width, height, data, symbol, jsData := None, None, None, None, None;
    }

    /** Submits exactly two scripts, in this order: the page script, then
        the construction of the chart in `chart-container`. */
    method OnPageLoadFinished()
      modifies this`log
      ensures log == old(log) + [RunSource(loadScript), ConstructChart("chart-container")]
    {
      log := log + [RunSource(loadScript)];
      log := log + [ConstructChart("chart-container")];
    }

    /** `_convert_data_to_js_format`, the same loop as the packaged widget's
        formatter: one record per row, in order, each shifted by the zone
        offset at its instant. */
    method ConvertDataToJsFormat(stockData: seq<Row>) returns (jsData: seq<Bar>)
      ensures |jsData| == |stockData|
      ensures forall k :: 0 <= k < |stockData| ==>
        && jsData[k].time == UtcSeconds(stockData[k]) + zoneOffset(UtcSeconds(stockData[k]))
        && jsData[k].open == stockData[k].open && jsData[k].high == stockData[k].high
        && jsData[k].low == stockData[k].low && jsData[k].close == stockData[k].close
        && jsData[k].volume == stockData[k].volume
      ensures jsData == Converted(stockData, zoneOffset)
    {
      jsData := Bars.ConvertDataToJsFormat(stockData, zoneOffset);
    }

    /** Records the view size, the symbol, the rows and their formatted
        bars, and submits exactly one command carrying them. */
    method CreateCandlestickChartWithData(symbol: string, data: seq<Row>, viewWidth: int, viewHeight: int)
      requires Valid()
      modifies this
      ensures Valid()
      ensures width == Some(viewWidth) && height == Some(viewHeight)
      ensures this.data == Some(data) && this.symbol == Some(symbol)
      ensures jsData == Some(Converted(data, zoneOffset))
      ensures log == old(log) + [CreateCandlestickChart(viewWidth, viewHeight, symbol, Converted(data, zoneOffset))]
    {
      width := Some(viewWidth);
      height := Some(viewHeight);
      this.data := Some(data);
      this.symbol := Some(symbol);
      var converted := ConvertDataToJsFormat(data);
      jsData := Some(converted);
      log := log + [CreateCandlestickChart(viewWidth, viewHeight, symbol, converted)];
    }
  }
}
