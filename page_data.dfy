/** Values the charting page works with, shared by both versions of the page
    script: the projections that turn bar records into volume and line
    points, the line options and their merge with the defaults, the state
    of a library chart (which series it holds, which handle it gives out
    next, where its crosshair is), crosshair event parameters and the text a
    legend shows.  Library series are opaque handles: a `nat` that the
    library chart gives out once. */
module PageData {
  import opened Wrappers
  import opened Bars
  import Seqs

  // ---------------------------------------------------------------------
  // Bar fields by name, and the two projections
  // ---------------------------------------------------------------------

  /** `d[name]` on a bar record; an unknown key gives `undefined` (`None`). */
  function Field(b: Bar, name: string): Option<real> {
    if name == "time" then Some(b.time as real)
    else if name == "open" then Some(b.open)
    else if name == "high" then Some(b.high)
    else if name == "low" then Some(b.low)
    else if name == "close" then Some(b.close)
    else if name == "volume" then Some(b.volume)
    else None
  }

  /** Histogram colour of a bar that closed above its open. */
  const UpColor: string := "#26a69aaa"
  /** Histogram colour of every other bar. */
  const DownColor: string := "#ef5350aa"

  datatype VolumePoint = VolumePoint(time: int, value: Option<real>, color: string)

  datatype LinePoint = LinePoint(time: int, value: Option<real>)

  /** The `data.map` of `addVolumeSeries`. */
  function VolumeProjection(data: seq<Bar>, valueName: string): (points: seq<VolumePoint>)
    ensures |points| == |data|
    ensures forall i :: 0 <= i < |data| ==>
      && points[i].time == data[i].time
      && points[i].value == Field(data[i], valueName)
      && (points[i].color == UpColor <==> data[i].close > data[i].open)
      && (points[i].color == UpColor || points[i].color == DownColor)
  {
    if data == [] then []
    else
      var d := data[0];
      [VolumePoint(d.time, Field(d, valueName), if d.close > d.open then UpColor else DownColor)]
        + VolumeProjection(data[1..], valueName)
  }

  /** The `data.map` of `addLineSeries`. */
  function LineProjection(data: seq<Bar>, valueName: string): (points: seq<LinePoint>)
    ensures |points| == |data|
    ensures forall i :: 0 <= i < |data| ==>
      points[i].time == data[i].time && points[i].value == Field(data[i], valueName)
  {
    if data == [] then []
    else [LinePoint(data[0].time, Field(data[0], valueName))] + LineProjection(data[1..], valueName)
  }

  // ---------------------------------------------------------------------
  // Line options
  // ---------------------------------------------------------------------

  /** A value in an options object; `Undefined` is a key present with the
      value `undefined`. */
  datatype OptionValue = Str(s: string) | Num(n: int) | Flag(b: bool) | Undefined

  type Options = map<string, OptionValue>

  /** The `defaultOptions` of `addLineSeries`; the library's
      `LineStyle.Solid` and `LastPriceAnimationMode.Disabled` are both 0. */
  function DefaultLineOptions(): Options {
    map[
      "color" := Str("#ffffffaa"),
      "lineWidth" := Num(1),
      "lineType" := Num(0),
      "lineStyle" := Num(0),
      "lineVisible" := Flag(true),
      "pointMarkersVisible" := Flag(false),
      "pointMarkersRadius" := Undefined,
      "crosshairMarkerVisible" := Flag(true),
      "crosshairMarkerRadius" := Num(4),
      "crosshairMarkerBorderColor" := Str(""),
      "crosshairMarkerBackgroundColor" := Str(""),
      "crosshairMarkerBorderWidth" := Num(2),
      "lastPriceAnimation" := Num(0)
    ]
  }

  /** `{ ...defaults, ...overrides }`: every key of either object, each with
      the overriding value when there is one and the default otherwise. */
  function MergeOptions(defaults: Options, overrides: Options): (merged: Options)
    ensures merged.Keys == defaults.Keys + overrides.Keys
    ensures forall k :: k in overrides ==> merged[k] == overrides[k]
    ensures forall k :: k in defaults && k !in overrides ==> merged[k] == defaults[k]
  {
    defaults + overrides
  }

  /** Overriding with values equal to the defaults changes nothing; this is
      what the fixed `{ color: '#ffffffaa', lineWidth: 1 }` of the older page
      does. */
  lemma MergeWithDefaultsAgreeing(defaults: Options, overrides: Options)
    requires forall k :: k in overrides ==> k in defaults && defaults[k] == overrides[k]
    ensures MergeOptions(defaults, overrides) == defaults
  {
    var m := MergeOptions(defaults, overrides);
    assert m.Keys == defaults.Keys;
    forall k | k in m ensures m[k] == defaults[k] {
      if k in overrides { assert m[k] == overrides[k]; }
    }
  }

  /** Overrides that name every default key replace the defaults entirely. */
  lemma MergeWithFullOverrides(defaults: Options, overrides: Options)
    requires defaults.Keys <= overrides.Keys
    ensures MergeOptions(defaults, overrides) == overrides
  {
    var m := MergeOptions(defaults, overrides);
    assert m.Keys == overrides.Keys;
  }

  // ---------------------------------------------------------------------
  // The library chart and the series it holds
  // ---------------------------------------------------------------------

  /** The right price scale margins of a chart's options object; the other
      entries (colours, fonts, grid) are the same for every chart. */
  datatype ChartOptions = ChartOptions(scaleMarginTop: real, scaleMarginBottom: real)

  /** `MainchartOptions` of the newer page. */
  const MainchartOptions := ChartOptions(0.1, 0.0)
  /** `SubchartOptions` of the newer page. */
  const SubchartOptions := ChartOptions(0.0, 0.0)

  datatype CrosshairPosition = Cleared | Positioned(value: Option<real>, time: int, series: Option<nat>)

  /** A library chart: its size and options, the handles of the series
      attached to it, the handle its next series gets, and its crosshair. */
  datatype LibChart = LibChart(
    width: int, height: int, options: ChartOptions,
    attached: set<nat>, nextSeries: nat, crosshair: CrosshairPosition)

  /** What `LightweightCharts.createChart` returns. */
  function NewLibChart(width: int, height: int, options: ChartOptions): LibChart {
    LibChart(width, height, options, {}, 0, Cleared)
  }

  /** The chart after one more `add...Series` call; the new series' handle
      is the old `nextSeries`. */
  function AttachSeries(c: LibChart): (c': LibChart)
    ensures c'.attached == c.attached + {c.nextSeries}
    ensures c.nextSeries < c'.nextSeries
    ensures c' == c.(attached := c'.attached, nextSeries := c'.nextSeries)
  {
    c.(attached := c.attached + {c.nextSeries}, nextSeries := c.nextSeries + 1)
  }

  /** The chart after `removeSeries` of each handle in `hs`. */
  function DetachSeries(c: LibChart, hs: set<nat>): LibChart {
    c.(attached := c.attached - hs)
  }

  datatype CandleSeries = CandleSeries(handle: nat, data: seq<Bar>)

  datatype VolumeSeries = VolumeSeries(handle: nat, data: seq<VolumePoint>)

  /** A line series with the `title` the page stores on it. */
  datatype LineSeries = LineSeries(handle: nat, title: string, options: Options, data: seq<LinePoint>)

  function LineHandles(lines: seq<LineSeries>): set<nat> {
    set l | l in lines :: l.handle
  }

  function OptionHandle<S>(slot: Option<S>, handle: S -> nat): set<nat> {
    if slot.Some? then {handle(slot.value)} else {}
  }

  /** The handles of every series a page chart holds in its slots. */
  function SlotHandles(candle: Option<CandleSeries>, volume: Option<VolumeSeries>, lines: seq<LineSeries>): set<nat> {
    OptionHandle(candle, (s: CandleSeries) => s.handle)
      + OptionHandle(volume, (s: VolumeSeries) => s.handle)
      + LineHandles(lines)
  }

  /** No two slots hold the same library series. */
  ghost predicate SlotsDistinct(candle: Option<CandleSeries>, volume: Option<VolumeSeries>, lines: seq<LineSeries>) {
    && (forall i, j :: 0 <= i < j < |lines| ==> lines[i].handle != lines[j].handle)
    && (candle.Some? ==> candle.value.handle !in LineHandles(lines))
    && (volume.Some? ==> volume.value.handle !in LineHandles(lines))
    && (candle.Some? && volume.Some? ==> candle.value.handle != volume.value.handle)
  }

  /** The invariant of a page chart's series slots: without a library chart
      there are no series; with one, the library holds exactly the series
      in the slots (none is leaked, none is missing), every handle was given
      out before, and no series sits in two slots. */
  ghost predicate SlotsValid(chart: Option<LibChart>, candle: Option<CandleSeries>, volume: Option<VolumeSeries>, lines: seq<LineSeries>) {
    match chart
    case None => candle.None? && volume.None? && lines == []
    case Some(c) =>
      && c.attached == SlotHandles(candle, volume, lines)
      && (forall h :: h in c.attached ==> h < c.nextSeries)
      && SlotsDistinct(candle, volume, lines)
  }

  lemma LineHandlesAppend(lines: seq<LineSeries>, s: LineSeries)
    ensures LineHandles(lines + [s]) == LineHandles(lines) + {s.handle}
  {
    var l := lines + [s];
    forall h | h in LineHandles(lines) ensures h in LineHandles(l) {
      var x :| x in lines && x.handle == h;
      assert x in l;
    }
    assert s in l;
  }

  /** Removing the `i`th line series from a chart whose slots are valid,
      and detaching it from the library chart, keeps the slots valid. */
  lemma RemoveLineKeepsSlots(c: LibChart, candle: Option<CandleSeries>, volume: Option<VolumeSeries>, lines: seq<LineSeries>, i: nat)
    requires i < |lines| && SlotsValid(Some(c), candle, volume, lines)
    ensures SlotsValid(Some(DetachSeries(c, {lines[i].handle})), candle, volume, Seqs.RemoveAt(lines, i))
  {
    var r := Seqs.RemoveAt(lines, i);
    var h := lines[i].handle;
    assert lines[i] in lines;
    forall x | x in LineHandles(lines) && x != h ensures x in LineHandles(r) {
      var l :| l in lines && l.handle == x;
      var k :| 0 <= k < |lines| && lines[k] == l;
      if k < i { assert r[k] == l; } else { assert k != i; assert r[k - 1] == l; }
    }
    forall x | x in LineHandles(r) ensures x in LineHandles(lines) && x != h {
      var l :| l in r && l.handle == x;
      var k :| 0 <= k < |r| && r[k] == l;
      if k < i { assert lines[k] == l; } else { assert lines[k + 1] == l; }
    }
    assert LineHandles(r) == LineHandles(lines) - {h};
  }

  /** The position of the first line series titled `title` (what
      `find(series => series.title === title)` picks), if any. */
  function FirstTitled(lines: seq<LineSeries>, title: string): (r: Option<nat>)
    ensures r.None? <==> forall k :: 0 <= k < |lines| ==> lines[k].title != title
    ensures r.Some? ==> r.value < |lines| && lines[r.value].title == title
    ensures r.Some? ==> forall k :: 0 <= k < r.value ==> lines[k].title != title
  {
    if lines == [] then None
    else if lines[0].title == title then Some(0)
    else
      var r := FirstTitled(lines[1..], title);
      if r.Some? then Some(r.value + 1) else None
  }

  /** The line series titled `t`, in list order. */
  function TitledWith(lines: seq<LineSeries>, t: string): seq<LineSeries> {
    if lines == [] then []
    else (if lines[0].title == t then [lines[0]] else []) + TitledWith(lines[1..], t)
  }

  lemma {:induction false} TitledWithAppend(a: seq<LineSeries>, b: seq<LineSeries>, t: string)
    ensures TitledWith(a + b, t) == TitledWith(a, t) + TitledWith(b, t)
  {
    if a == [] {
      assert a + b == b;
    } else {
      assert (a + b)[0] == a[0];
      assert (a + b)[1..] == a[1..] + b;
      TitledWithAppend(a[1..], b, t);
    }
  }

  /** Removing the `i`th series, titled `title`, leaves the series of every
      other title exactly as they were, in the same order. */
  lemma RemoveTitledKeepsOthers(lines: seq<LineSeries>, i: nat, title: string, t: string)
    requires i < |lines| && lines[i].title == title && t != title
    ensures TitledWith(Seqs.RemoveAt(lines, i), t) == TitledWith(lines, t)
  {
    assert lines == lines[..i] + ([lines[i]] + lines[i + 1..]);
    TitledWithAppend(lines[..i], [lines[i]] + lines[i + 1..], t);
    TitledWithAppend([lines[i]], lines[i + 1..], t);
    TitledWithAppend(lines[..i], lines[i + 1..], t);
    assert TitledWith([lines[i]], t) == [] by {
      assert [lines[i]][1..] == [];
    }
  }

  // ---------------------------------------------------------------------
  // Crosshair events and the legend
  // ---------------------------------------------------------------------

  datatype Point = Point(x: real, y: real)

  /** An entry of `param.seriesData`: its time and its `value` (bars of a
      candlestick series have none). */
  datatype DataPoint = DataPoint(time: int, value: Option<real>)

  /** The object a crosshair-move callback receives: the time under the
      crosshair (absent outside the data), the pointer position and the data
      of each series at that time, keyed by series handle. */
  datatype CrosshairParam = CrosshairParam(time: Option<int>, point: Point, seriesData: map<nat, DataPoint>)

  /** The `validCrosshairPoint` test of `updateLegend`; `None` stands for an
      undefined `param`. */
  predicate ValidCrosshairPoint(param: Option<CrosshairParam>) {
    !(param.None? || param.value.time.None? || param.value.point.x < 0.0 || param.value.point.y < 0.0)
  }

  /** What a legend element shows: nothing, or a line naming the symbol (if
      there is one) and the values of the candlestick series, the volume
      series and the line series (by title) at the crosshair.  The number
      formatting is not modelled. */
  datatype LegendText = Blank | Filled(symbol: Option<string>, showsCandle: bool, showsVolume: bool, lineTitles: seq<string>)

  /** The titles of the line series, in list order. */
  function Titles(lines: seq<LineSeries>): (titles: seq<string>)
    ensures |titles| == |lines|
    ensures forall i :: 0 <= i < |lines| ==> titles[i] == lines[i].title
  {
    if lines == [] then [] else [lines[0].title] + Titles(lines[1..])
  }
}
