/**
 * The view state of the dashboard page (public/app.js): the bounded array
 * of chart points, the array the chart actually plots, and the rows the
 * recent-values table shows, driven by the messages the server pushes.
 * Chart.js, the DOM and the WebSocket itself are not modelled.
 */
module Client {
  import opened Protocol

  /** The chart keeps at most this many points once it has been pushed to. */
  const MAX_POINTS: nat := 100
  /** The table shows at most this many rows. */
  const TABLE_ROWS: nat := 10

  /** A chart point: x from the timestamp, y from the value. */
  datatype Point = Point(x: Timestamp, y: Value)

  function ToPoint(item: Row): Point
  {
    Point(item.timestamp, item.value)
  }

  /** The `initialData.map(...)` conversion of `createChart`. */
  function ToPoints(items: seq<Row>): (ps: seq<Point>)
    ensures |ps| == |items|
    ensures forall k :: 0 <= k < |items| ==>
              ps[k].x == items[k].timestamp && ps[k].y == items[k].value
  {
    if items == [] then [] else [ToPoint(items[0])] + ToPoints(items[1..])
  }

  // ---------------------------------------------------------------------
  // The bounded buffer of `addDataToChart`

  /** `push` then, when the length exceeds MAX_POINTS, `shift`. */
  function Pushed(buf: seq<Point>, p: Point): (r: seq<Point>)
    ensures |r| > 0 && r[|r| - 1] == p
    ensures |buf| < MAX_POINTS ==> |r| == |buf| + 1 && r[..|buf|] == buf
    ensures |buf| >= MAX_POINTS ==> |r| == |buf| && r[..|buf| - 1] == buf[1..]
  {
    var grown := buf + [p];
    if |grown| > MAX_POINTS then grown[1..] else grown
  }

  /** The buffer after pushing every point of `ps`, in order. */
  function PushAll(buf: seq<Point>, ps: seq<Point>): seq<Point>
    decreases |ps|
  {
    if ps == [] then buf else PushAll(Pushed(buf, ps[0]), ps[1..])
  }

  /** After any run of pushes the buffer is the newest part of everything
      pushed onto it. Its length grows up to MAX_POINTS and stays there; a
      buffer that was seeded with more than MAX_POINTS points keeps its
      length and never shrinks back to MAX_POINTS. */
  lemma {:induction false} PushAllWindow(buf: seq<Point>, ps: seq<Point>)
    ensures var r := PushAll(buf, ps);
      && |r| == (if |buf| > MAX_POINTS then |buf| else Min(|buf| + |ps|, MAX_POINTS))
      && r == (buf + ps)[|buf| + |ps| - |r|..]
    decreases |ps|
  {
    if ps != [] {
      var b1 := Pushed(buf, ps[0]);
      PushAllWindow(b1, ps[1..]);
      var d := |buf| + 1 - |b1|;
      assert b1 == (buf + [ps[0]])[d..];
      assert b1 + ps[1..] == (buf + ps)[d..] by {
        assert buf + ps == (buf + [ps[0]]) + ps[1..];
      }
      var r := PushAll(b1, ps[1..]);
      assert r == (buf + ps)[d..][|b1| + |ps| - 1 - |r|..];
    }
  }

  // ---------------------------------------------------------------------
  // The recent-values table of `updateDataTable`

  function Reverse<T>(s: seq<T>): (r: seq<T>)
    ensures |r| == |s|
    ensures forall k :: 0 <= k < |s| ==> r[k] == s[|s| - 1 - k]
  {
    if s == [] then [] else Reverse(s[1..]) + [s[0]]
  }

  /** `data.slice(-10).reverse()`: the newest TABLE_ROWS rows, newest first. */
  function RecentRows(data: seq<Row>): (r: seq<Row>)
    ensures |r| == Min(|data|, TABLE_ROWS)
    ensures forall k :: 0 <= k < |r| ==> r[k] == data[|data| - 1 - k]
  {
    Reverse(data[|data| - Min(|data|, TABLE_ROWS)..])
  }

  /** What the table body holds: the "no data" placeholder, or rows. */
  datatype Table = Placeholder | Listing(rows: seq<Row>)

  /** The table `updateDataTable(data)` leaves: the placeholder exactly for
      empty input, otherwise the newest rows of `data`, newest first. */
  function TableFor(data: seq<Row>): (t: Table)
    ensures t == Placeholder <==> |data| == 0
    ensures t.Listing? ==>
      && |t.rows| == Min(|data|, TABLE_ROWS)
      && forall k :: 0 <= k < |t.rows| ==> t.rows[k] == data[|data| - 1 - k]
  {
    if |data| == 0 then Placeholder else Listing(RecentRows(data))
  }

  // ---------------------------------------------------------------------
  // The page's mutable state

  /** A JavaScript array of chart points, shared by reference. */
  class PointBuffer {
    var items: seq<Point>

    constructor (items: seq<Point>)
      ensures this.items == items
    {
      this.items := items;
    }
  }

  /** A message as the page sees it: one of the server's three kinds, or any
      other `type`. */
  datatype Incoming = Known(msg: Message) | UnknownType

  class ViewState {
    /** `chart`, represented by the point array its dataset plots; null
        until `createChart` has run. */
    var chart: PointBuffer?
    /** The module-level `chartData` array. */
    var chartData: PointBuffer
    /** The rows of the table body. */
    var table: Table

    /** The chart plots `chartData` itself, so what it shows is the buffer. */
    ghost predicate Synced()
      reads this
    {
      chart == null || chart == chartData
    }

    /** The page before any message: no chart, an empty array, an empty
        table body (the page's own initial markup is not modelled). */
    constructor ()
      ensures chart == null && fresh(chartData) && chartData.items == [] && table == Listing([])
      ensures Synced()
    {
      chart := null;
      chartData := new PointBuffer([]);
      table := Listing([]);
    }

    /** `createChart(initialData)`: a new array with one point per item, in
        order and untruncated, which the new chart plots. */
    method CreateChart(initialData: seq<Row>)
      modifies this
      ensures fresh(chartData) && chart == chartData
      ensures chartData.items == ToPoints(initialData)
      ensures table == old(table)
    {
      chartData := new PointBuffer(ToPoints(initialData));
      chart := chartData;
    }

    /** `addDataToChart(data)`: nothing without a chart; otherwise push the
        point and drop the oldest once there are more than MAX_POINTS. */
    method AddDataToChart(data: Row)
      modifies chartData
      ensures chart == null ==> chartData.items == old(chartData.items)
      ensures chart != null ==> chartData.items == Pushed(old(chartData.items), ToPoint(data))
    {
      if chart == null {
        return;
      }
      chartData.items := chartData.items + [ToPoint(data)];
      if |chartData.items| > MAX_POINTS {
        chartData.items := chartData.items[1..];
      }
    }

    /** `updateDataTable(data)`: the placeholder for empty input, otherwise
        the table is emptied and the selected rows appended one by one. */
    method UpdateDataTable(data: seq<Row>)
      modifies this`table
      ensures table == TableFor(data)
    {
      if |data| == 0 {
        table := Placeholder;
        return;
      }
      var recentData := data[|data| - Min(|data|, TABLE_ROWS)..];
      var newestFirst := Reverse(recentData);
      table := Listing([]);
      for i := 0 to |newestFirst|
        invariant table == Listing(newestFirst[..i])
      {
        table := Listing(table.rows + [newestFirst[i]]);
      }
      assert newestFirst[..|newestFirst|] == newestFirst;
    }

    /** The `dataCleared` reset as the source writes it: a new empty array
        is assigned to `chartData`, while the chart keeps plotting the old
        one. */
    method ResetChartAsWritten()
      modifies this`chartData
      ensures old(chart) != null ==> fresh(chartData) && chartData.items == []
      ensures old(chart) == null ==> chartData == old(chartData)
    {
      if chart != null {
        chartData := new PointBuffer([]);
      }
    }

    /** The `dataCleared` reset emptying the plotted array in place, so the
        chart is cleared too. */
    method ResetChart()
      modifies chartData
      ensures chart != null ==> chartData.items == []
      ensures chart == null ==> chartData.items == old(chartData.items)
    {
      if chart != null {
        chartData.items := [];
      }
    }

    /** The `message` handler as the source writes it. `refetched` is what
        the `fetch('/api/data')` after a `dataUpdate` yields: a row list, or
        None when the request fails or the body is not a list (then
        `updateDataTable` throws before it touches the table). On
        `dataCleared` with a chart, `chartData` is rebound to a new empty
        array and the chart keeps plotting its old one; from then on the
        pushes of `dataUpdate` reach only the new array. */
    method OnMessageAsWritten(m: Incoming, refetched: Option<seq<Row>>)
      modifies this, chartData
      ensures m.Known? && m.msg.InitialData? ==>
        && fresh(chartData) && chart == chartData
        && chartData.items == ToPoints(m.msg.rows)
        && table == TableFor(m.msg.rows)
        && old(chartData).items == old(chartData.items)
      ensures m.Known? && m.msg.DataUpdate? ==>
        && chart == old(chart) && chartData == old(chartData)
        && chartData.items == (if old(chart) != null
                               then Pushed(old(chartData.items), ToPoint(m.msg.row))
                               else old(chartData.items))
        && (old(chart) != null && old(chart) != old(chartData) ==> chart.items == old(chart.items))
        && table == (if refetched.Some? then TableFor(refetched.value) else old(table))
      ensures m == Known(DataCleared) && old(chart) != null ==>
        && fresh(chartData) && chartData.items == []
        && chart == old(chart) && chart.items == old(chart.items)
        && table == Placeholder
      ensures m == Known(DataCleared) && old(chart) == null ==>
        && chart == null && chartData == old(chartData)
        && chartData.items == old(chartData.items)
        && table == Placeholder
      ensures m == UnknownType ==>
        && chart == old(chart) && chartData == old(chartData)
        && chartData.items == old(chartData.items) && table == old(table)
    {
      match m
      case UnknownType =>
      case Known(msg) =>
        match msg
        case InitialData(rows) =>
          CreateChart(rows);
          UpdateDataTable(rows);
        case DataUpdate(row) =>
          AddDataToChart(row);
          if refetched.Some? {
            UpdateDataTable(refetched.value);
          }
        case DataCleared =>
          ResetChartAsWritten();
          UpdateDataTable([]);
    }

    /** The `message` handler corrected: the same dispatch as
        `OnMessageAsWritten`, except that `dataCleared` empties the plotted
        array in place, so the chart always plots `chartData`. */
    method OnMessage(m: Incoming, refetched: Option<seq<Row>>)
      modifies this, chartData
      ensures old(Synced()) ==> Synced()
      ensures m.Known? && m.msg.InitialData? ==>
        && fresh(chartData) && chart == chartData
        && chartData.items == ToPoints(m.msg.rows)
        && table == TableFor(m.msg.rows)
        && old(chartData).items == old(chartData.items)
      ensures m.Known? && m.msg.DataUpdate? ==>
        && chart == old(chart) && chartData == old(chartData)
        && chartData.items == (if old(chart) != null
                               then Pushed(old(chartData.items), ToPoint(m.msg.row))
                               else old(chartData.items))
        && table == (if refetched.Some? then TableFor(refetched.value) else old(table))
      ensures m == Known(DataCleared) ==>
        && chart == old(chart) && chartData == old(chartData)
        && chartData.items == (if old(chart) != null then [] else old(chartData.items))
        && table == Placeholder
      ensures m == UnknownType ==>
        && chart == old(chart) && chartData == old(chartData)
        && chartData.items == old(chartData.items) && table == old(table)
    {
      match m
      case UnknownType =>
      case Known(msg) =>
        match msg
        case InitialData(rows) =>
          CreateChart(rows);
          UpdateDataTable(rows);
        case DataUpdate(row) =>
          AddDataToChart(row);
          if refetched.Some? {
            UpdateDataTable(refetched.value);
          }
        case DataCleared =>
          ResetChart();
          UpdateDataTable([]);
    }
  }

  /** As written, a `dataCleared` leaves the chart plotting its old points,
      and the points pushed afterwards go to an array the chart never
      shows. */
  method StaleChartAfterClear(first: Row, next: Row) returns (plotted: seq<Point>, buffered: seq<Point>)
    ensures plotted == [ToPoint(first)]
    ensures buffered == [ToPoint(next)]
  {
    var view := new ViewState();
    view.OnMessageAsWritten(Known(InitialData([first])), None);
    view.OnMessageAsWritten(Known(DataCleared), None);
    view.OnMessageAsWritten(Known(DataUpdate(next)), None);
    plotted := view.chart.items;
    buffered := view.chartData.items;
  }

  /** With the in-place reset, the same messages leave the chart plotting
      exactly the buffer: only the point that came after the clear. */
  method ChartFollowsBufferAfterClear(first: Row, next: Row) returns (plotted: seq<Point>, buffered: seq<Point>)
    ensures plotted == buffered == [ToPoint(next)]
  {
    var view := new ViewState();
    view.OnMessage(Known(InitialData([first])), None);
    view.OnMessage(Known(DataCleared), None);
    view.OnMessage(Known(DataUpdate(next)), None);
    plotted := view.chart.items;
    buffered := view.chartData.items;
  }
}
