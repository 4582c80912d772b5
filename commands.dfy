/** The commands the Python widgets send into the page.  Each widget
    operation submits one script; the model records the script as one typed
    command in a log instead of as text.  Also here: the Python-side line
    style parameters and the options object they become, and the outcome of
    an operation that raises. */
module Commands {
  import opened Wrappers
  import opened Bars
  import opened PageData

  /** Which page chart a command addresses: the `mainChart` variable or the
      variable named by a sub-chart id. */
  datatype Target = MainChart | SubChart(id: string)

  /** The `scaleMargins` a script applies through `priceScale().applyOptions`. */
  datatype Margins = Margins(top: real, bottom: real)

  /** Candlestick margins while a volume series sits below it. */
  const CandleMarginsWithVolume := Margins(0.1, 0.21)
  /** Margins of the volume series. */
  const VolumeMargins := Margins(0.8, 0.0)
  /** Candlestick margins restored when the volume series goes. */
  const CandleMarginsAlone := Margins(0.1, 0.0)

  /** A submitted script.  A size of `None` stands for a widget size
      attribute that was never assigned: the f-string then formats Qt's own
      `width`/`height` method object, not a number. */
  datatype Command =
    | ConstructParentChart(containerId: string, width: int, height: int)
    | AddCandlestick(target: Target, symbol: string, data: seq<Bar>)
    | RemoveCandlestick(target: Target)
    | AddVolume(target: Target, data: seq<Bar>, valueName: string, candleMargins: Margins, volumeMargins: Margins)
    | RemoveVolume(target: Target, candleMargins: Margins)
    | AddLine(target: Target, data: seq<Bar>, valueName: string, title: string, options: Options)
    | RemoveLine(target: Target, title: string)
    | AddSubChartCommand(id: string, subWidth: Option<int>, subHeight: Option<int>)
    | RemoveSubChartCommand(id: string)
    | RunSource(source: string)
    | ConstructChart(containerId: string)
    | CreateCandlestickChart(width: int, height: int, symbol: string, data: seq<Bar>)

  /** The `LineStyle` enum and its values. */
  datatype LineStyle = Solid | Dotted | Dashed | LargeDashed | SparseDotted {
    function Value(): int {
      match this
      case Solid => 0
      case Dotted => 1
      case Dashed => 2
      case LargeDashed => 3
      case SparseDotted => 4
    }
  }

  /** The `LastPriceAnimationMode` enum and its values. */
  datatype LastPriceAnimationMode = Disabled | Continuous | OnDataUpdate {
    function Value(): int {
      match this
      case Disabled => 0
      case Continuous => 1
      case OnDataUpdate => 2
    }
  }

  /** The keyword parameters of `mainChart_addLineSeries` and
      `subChart_addLineSeries` after `data`, `value_name` and `title`. */
  datatype LineParams = LineParams(
    color: string, lineWidth: int, lineType: int, lineStyle: int,
    lineVisible: bool, pointMarkersVisible: bool, crosshairMarkerVisible: bool,
    crosshairMarkerRadius: int, crosshairMarkerBorderColor: string,
    crosshairMarkerBackgroundColor: string, crosshairMarkerBorderWidth: int,
    lastPriceAnimation: int)

  /** The parameters' default values. */
  function DefaultLineParams(): LineParams {
    LineParams("#ffffffaa", 1, 0, LineStyle.Solid.Value(), true, false, true, 4, "", "", 2,
               LastPriceAnimationMode.Disabled.Value())
  }

  /** The `lineOptions` object the script builds from the parameters; it
      always names every option, with `pointMarkersRadius` undefined. */
  function LineOptionsOf(p: LineParams): Options {
    map[
      "color" := Str(p.color),
      "lineWidth" := Num(p.lineWidth),
      "lineType" := Num(p.lineType),
      "lineStyle" := Num(p.lineStyle),
      "lineVisible" := Flag(p.lineVisible),
      "pointMarkersVisible" := Flag(p.pointMarkersVisible),
      "pointMarkersRadius" := Undefined,
      "crosshairMarkerVisible" := Flag(p.crosshairMarkerVisible),
      "crosshairMarkerRadius" := Num(p.crosshairMarkerRadius),
      "crosshairMarkerBorderColor" := Str(p.crosshairMarkerBorderColor),
      "crosshairMarkerBackgroundColor" := Str(p.crosshairMarkerBackgroundColor),
      "crosshairMarkerBorderWidth" := Num(p.crosshairMarkerBorderWidth),
      "lastPriceAnimation" := Num(p.lastPriceAnimation)
    ]
  }

  /** The Python defaults give exactly the page's `defaultOptions`. */
  lemma DefaultParamsGiveDefaultOptions()
    ensures LineOptionsOf(DefaultLineParams()) == DefaultLineOptions()
  {
  }

  /** Since the widget always sends every option, the page's merge with its
      defaults yields exactly what the widget sent. */
  lemma SentOptionsOverrideDefaults(p: LineParams)
    ensures MergeOptions(DefaultLineOptions(), LineOptionsOf(p)) == LineOptionsOf(p)
  {
    MergeWithFullOverrides(DefaultLineOptions(), LineOptionsOf(p));
  }

  /** A Python exception an operation raises before submitting its script. */
  datatype PyError = AttributeError(name: string)

  datatype Outcome = Done | Raised(error: PyError)
}
