/** The bar formatter: turns the price table handed over by the data source
    into the list of bar records the charting page consumes.  Each record's
    time is the row's instant in whole seconds, shifted by the target time
    zone's UTC offset at that instant, so that a chart that shows every time
    as UTC shows local wall-clock time.  The zone database is abstracted as a
    total function `offset` from a UTC instant (seconds) to the zone's UTC
    offset (seconds) at that instant. */
module Bars {

  /** One row of the price table: its index as seconds since the epoch (a
      float in the source) and its Open/High/Low/Close/Volume columns. */
  datatype Row = Row(timestamp: real, open: real, high: real, low: real, close: real, volume: real)

  /** One record of the page's data list. */
  datatype Bar = Bar(time: int, open: real, high: real, low: real, close: real, volume: real)

  /** Python's `int(x)` on a float: truncation toward zero. */
  function TruncateToInt(x: real): (n: int)
    ensures 0.0 <= x ==> 0 <= n && n as real <= x < n as real + 1.0
    ensures x < 0.0 ==> n <= 0 && n as real - 1.0 < x <= n as real
  {
    if x >= 0.0 then x.Floor else -((-x).Floor)
  }

  /** The whole-second UTC instant of a row. */
  function UtcSeconds(row: Row): int {
    TruncateToInt(row.timestamp)
  }

  /** The record emitted for one row. */
  function ToBar(row: Row, offset: int -> int): Bar {
    var t := UtcSeconds(row);
    Bar(t + offset(t), row.open, row.high, row.low, row.close, row.volume)
  }

  /** The list the formatter builds: one record per row, appended in row order. */
  function Converted(rows: seq<Row>, offset: int -> int): (bars: seq<Bar>)
    ensures |bars| == |rows|
  {
    if rows == [] then []
    else Converted(rows[..|rows| - 1], offset) + [ToBar(rows[|rows| - 1], offset)]
  }

  /** Record `k` describes row `k`: its time is the row's truncated instant
      plus the zone's offset at that same instant, and its prices and volume
      are the row's, unchanged. */
  lemma {:induction false} ConvertedAt(rows: seq<Row>, offset: int -> int, k: nat)
    requires k < |rows|
    ensures Converted(rows, offset)[k].time == UtcSeconds(rows[k]) + offset(UtcSeconds(rows[k]))
    ensures Converted(rows, offset)[k].open == rows[k].open
    ensures Converted(rows, offset)[k].high == rows[k].high
    ensures Converted(rows, offset)[k].low == rows[k].low
    ensures Converted(rows, offset)[k].close == rows[k].close
    ensures Converted(rows, offset)[k].volume == rows[k].volume
  {
    var n := |rows|;
    if k < n - 1 {
      ConvertedAt(rows[..n - 1], offset, k);
      assert rows[..n - 1][k] == rows[k];
    }
  }

  /** Formatting a table in two pieces gives the two pieces' records one
      after the other: the formatter keeps the input order. */
  lemma {:induction false} ConvertedAppend(a: seq<Row>, b: seq<Row>, offset: int -> int)
    ensures Converted(a + b, offset) == Converted(a, offset) + Converted(b, offset)
  {
    if b == [] {
      assert a + b == a;
    } else {
      var n := |b|;
      assert (a + b)[..|a + b| - 1] == a + b[..n - 1];
      assert (a + b)[|a + b| - 1] == b[n - 1];
      ConvertedAppend(a, b[..n - 1], offset);
    }
  }

  /** If the rows' whole-second instants increase strictly and the zone's
      local clock never steps back (`t + offset(t)` increases with `t`, as
      for a zone with a fixed offset), the records' times increase strictly
      too, which is the order the chart requires of its data. */
  lemma TimesIncrease(rows: seq<Row>, offset: int -> int)
    requires forall i, j :: 0 <= i < j < |rows| ==> UtcSeconds(rows[i]) < UtcSeconds(rows[j])
    requires forall t, u :: t < u ==> t + offset(t) < u + offset(u)
    ensures forall i, j :: 0 <= i < j < |rows| ==>
      Converted(rows, offset)[i].time < Converted(rows, offset)[j].time
  {
    forall i, j | 0 <= i < j < |rows|
      ensures Converted(rows, offset)[i].time < Converted(rows, offset)[j].time
    {
      ConvertedAt(rows, offset, i);
      ConvertedAt(rows, offset, j);
    }
  }

  /** `convert_data_to_js_format`: the loop over the table's rows. */
  method ConvertDataToJsFormat(stockData: seq<Row>, offset: int -> int) returns (jsData: seq<Bar>)
    ensures jsData == Converted(stockData, offset)
    ensures |jsData| == |stockData|
    ensures forall k :: 0 <= k < |stockData| ==> jsData[k] == ToBar(stockData[k], offset)
  {
    jsData := [];
    var i := 0;
    while i < |stockData|
      invariant 0 <= i <= |stockData|
      invariant jsData == Converted(stockData[..i], offset)
      invariant forall k :: 0 <= k < i ==> jsData[k] == ToBar(stockData[k], offset)
    {
      var row := stockData[i];
      var tUtc := TruncateToInt(row.timestamp);
      var utcOffset := offset(tUtc);
      var tLocal := tUtc + utcOffset;
      assert stockData[..i + 1][..i] == stockData[..i];
      jsData := jsData + [Bar(tLocal, row.open, row.high, row.low, row.close, row.volume)];
      i := i + 1;
    }
    assert stockData[..i] == stockData;
  }
}
