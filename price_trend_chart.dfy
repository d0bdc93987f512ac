/** The price-trend chart (components/PriceTrendChart.tsx): one row per
    point of the first route's trend, where the row for date d maps each
    airline to its price on d, and one coloured line per route. */
module PriceTrendChart {
  import opened Types

  const NoDataMessage := "No price data available."
  const Colors := ["#0052E1", "#FF6B6B", "#4ECDC4", "#F7D754"]
  /** The key under which a row carries its date label. */
  const DateKey := "date"

  /** A row value: the date label or an airline's price. */
  datatype Cell = DateLabel(day: Day) | Price(price: real)

  /** A chart row: an object keyed by "date" and by airline names. */
  type Entry = map<string, Cell>

  /** Array.prototype.find on a trend: the first point dated `date`. */
  function Find(trend: seq<PriceDataPoint>, date: Day): (r: Option<PriceDataPoint>)
    ensures r.None? <==> forall i :: 0 <= i < |trend| ==> trend[i].date != date
    ensures r.Some? ==> exists i :: 0 <= i < |trend| && trend[i] == r.value && trend[i].date == date &&
                          forall j :: 0 <= j < i ==> trend[j].date != date
  {
    if |trend| == 0 then None
    else if trend[0].date == date then Some(trend[0])
    else
      var r := Find(trend[1..], date);
      assert forall i :: 1 <= i < |trend| ==> trend[i] == trend[1..][i - 1];
      r
  }

  /** The body of the forEach callback: set the route's airline key when it
      has a point on `date`. */
  function Apply(entry: Entry, route: RouteInfo, date: Day): (r: Entry)
    ensures route.airline in r <==> route.airline in entry || Find(route.priceTrend, date).Some?
    ensures Find(route.priceTrend, date).Some? ==>
      r[route.airline] == Price(Find(route.priceTrend, date).value.price)
    ensures forall key :: key != route.airline ==>
      (key in r <==> key in entry) && (key in r ==> r[key] == entry[key])
  {
    match Find(route.priceTrend, date)
    case Some(p) => entry[route.airline := Price(p.price)]
    case None => entry
  }

  /** The entry after the callback has run over `routes` in order. */
  function EntryFor(routes: seq<RouteInfo>, date: Day): (e: Entry)
    ensures DateKey in e
  {
    if |routes| == 0 then map[DateKey := DateLabel(date)]
    else Apply(EntryFor(routes[..|routes| - 1], date), routes[|routes| - 1], date)
  }

  /** The airline has a route with a point on `date`. */
  ghost predicate PricedOn(routes: seq<RouteInfo>, airline: string, date: Day)
  {
    exists j :: 0 <= j < |routes| && routes[j].airline == airline && Find(routes[j].priceTrend, date).Some?
  }

  /** The callback over one row: the loop of the forEach. */
  method BuildEntry(data: seq<RouteInfo>, pt: PriceDataPoint) returns (entry: Entry)
    ensures entry == EntryFor(data, pt.date)
  {
    entry := map[DateKey := DateLabel(pt.date)];
    var i := 0;
    while i < |data|
      invariant 0 <= i <= |data|
      invariant entry == EntryFor(data[..i], pt.date)
    {
      var route := data[i];
      var pricePoint := Find(route.priceTrend, pt.date);
      if pricePoint.Some? {
        entry := entry[route.airline := Price(pricePoint.value.price)];
      }
      assert data[..i + 1][..i] == data[..i];
      i := i + 1;
    }
    assert data[..|data|] == data;
  }

  /** An airline key is present exactly when one of its routes has a point
      on the date; a route without such a point adds no key. */
  lemma {:induction false} EntryKeys(routes: seq<RouteInfo>, date: Day, airline: string)
    requires airline != DateKey
    ensures airline in EntryFor(routes, date) <==> PricedOn(routes, airline, date)
  {
    if |routes| > 0 {
      var init := routes[..|routes| - 1];
      var last := routes[|routes| - 1];
      EntryKeys(init, date, airline);
      if PricedOn(routes, airline, date) && !(last.airline == airline && Find(last.priceTrend, date).Some?) {
        var j :| 0 <= j < |routes| && routes[j].airline == airline && Find(routes[j].priceTrend, date).Some?;
        assert init[j] == routes[j];
      }
      if PricedOn(init, airline, date) {
        var j :| 0 <= j < |init| && init[j].airline == airline && Find(init[j].priceTrend, date).Some?;
        assert routes[j] == init[j];
      }
    }
  }

  /** The price under an airline comes from its last route priced on the
      date (later routes overwrite earlier ones), and it is that route's
      first point on the date. */
  lemma {:induction false} EntryValue(routes: seq<RouteInfo>, date: Day, j: nat)
    requires j < |routes| && routes[j].airline != DateKey
    requires Find(routes[j].priceTrend, date).Some?
    requires forall k :: j < k < |routes| && routes[k].airline == routes[j].airline ==>
               Find(routes[k].priceTrend, date).None?
    ensures routes[j].airline in EntryFor(routes, date)
    ensures EntryFor(routes, date)[routes[j].airline] == Price(Find(routes[j].priceTrend, date).value.price)
  {
    var init := routes[..|routes| - 1];
    if j < |routes| - 1 {
      assert init[j] == routes[j];
      forall k | j < k < |init| && init[k].airline == init[j].airline
        ensures Find(init[k].priceTrend, date).None?
      {
        assert init[k] == routes[k];
      }
      EntryValue(init, date, j);
    }
  }

  /** The date label survives unless some route's airline is "date". */
  lemma {:induction false} EntryDateLabel(routes: seq<RouteInfo>, date: Day)
    requires forall j :: 0 <= j < |routes| ==> routes[j].airline != DateKey
    ensures EntryFor(routes, date)[DateKey] == DateLabel(date)
  {
    if |routes| > 0 {
      var init := routes[..|routes| - 1];
      forall j | 0 <= j < |init| ensures init[j].airline != DateKey {
        assert init[j] == routes[j];
      }
      EntryDateLabel(init, date);
    }
  }

  /** No key other than "date" and the routes' airlines. */
  lemma {:induction false} EntryKeysBounded(routes: seq<RouteInfo>, date: Day)
    ensures forall key :: key in EntryFor(routes, date) ==>
      key == DateKey || exists j :: 0 <= j < |routes| && routes[j].airline == key
  {
    if |routes| > 0 {
      var init := routes[..|routes| - 1];
      EntryKeysBounded(init, date);
      forall key | key in EntryFor(routes, date)
        ensures key == DateKey || exists j :: 0 <= j < |routes| && routes[j].airline == key
      {
        if key != DateKey && key != routes[|routes| - 1].airline {
          assert key in EntryFor(init, date);
          var j :| 0 <= j < |init| && init[j].airline == key;
          assert routes[j] == init[j];
        }
      }
    }
  }

  // ---------------------------------------------------------------------
  // The chart

  datatype Line = Line(key: string, dataKey: string, stroke: string)

  datatype TrendChartView = NoPriceData(message: string) | LineChart(rows: seq<Entry>, lines: seq<Line>)

  /** chartData: a row per point of the first route, in its order. */
  function ChartRows(data: seq<RouteInfo>): (rows: seq<Entry>)
    requires |data| > 0
    ensures |rows| == |data[0].priceTrend|
    ensures forall i :: 0 <= i < |rows| ==> DateKey in rows[i]
    ensures forall i :: 0 <= i < |rows| ==> rows[i] == EntryFor(data, data[0].priceTrend[i].date)
  {
    var pts := data[0].priceTrend;
    seq(|pts|, i requires 0 <= i < |pts| => EntryFor(data, pts[i].date))
  }

  /** One line per route: keyed by its id, plotting its airline, in colour i mod 4. */
  function ChartLines(data: seq<RouteInfo>): (lines: seq<Line>)
    ensures |lines| == |data|
    ensures forall i :: 0 <= i < |lines| ==>
      lines[i].key == data[i].id && lines[i].dataKey == data[i].airline && lines[i].stroke == Colors[i % 4]
  {
    seq(|data|, i requires 0 <= i < |data| => Line(data[i].id, data[i].airline, Colors[i % |Colors|]))
  }

  /** The chart for `data` (None stands for a missing prop). */
  function TrendChart(data: Option<seq<RouteInfo>>): (v: TrendChartView)
    ensures v.NoPriceData? <==> data.None? || |data.value| == 0
    ensures v.NoPriceData? ==> v.message == NoDataMessage
    ensures v.LineChart? ==> |v.rows| == |data.value[0].priceTrend| && |v.lines| == |data.value|
    ensures v.LineChart? ==> forall i :: 0 <= i < |v.rows| ==>
      v.rows[i] == EntryFor(data.value, data.value[0].priceTrend[i].date)
  {
    if data.None? || |data.value| == 0 then NoPriceData(NoDataMessage)
    else LineChart(ChartRows(data.value), ChartLines(data.value))
  }

  /** The component: the outer map over the first route's points. */
  method RenderPriceTrendChart(data: Option<seq<RouteInfo>>) returns (view: TrendChartView)
    ensures view == TrendChart(data)
  {
    if data.None? || |data.value| == 0 {
      return NoPriceData(NoDataMessage);
    }
    var routes := data.value;
    var pts := routes[0].priceTrend;
    var rows: seq<Entry> := [];
    var i := 0;
    while i < |pts|
      invariant 0 <= i <= |pts|
      invariant |rows| == i
      invariant forall k :: 0 <= k < i ==> rows[k] == EntryFor(routes, pts[k].date)
    {
      var entry := BuildEntry(routes, pts[i]);
      rows := rows + [entry];
      i := i + 1;
    }
    view := LineChart(rows, ChartLines(routes));
  }

  /** Rows follow the first route's trend: as many, in its order, and a
      date that only other routes have yields no row. */
  lemma RowsFollowFirstRoute(data: seq<RouteInfo>, d: Day)
    requires |data| > 0
    requires forall j :: 0 <= j < |data| ==> data[j].airline != DateKey
    requires forall p :: p in data[0].priceTrend ==> p.date != d
    ensures |ChartRows(data)| == |data[0].priceTrend|
    ensures forall i :: 0 <= i < |ChartRows(data)| ==>
      ChartRows(data)[i][DateKey] == DateLabel(data[0].priceTrend[i].date)
    ensures forall i :: 0 <= i < |ChartRows(data)| ==> ChartRows(data)[i][DateKey] != DateLabel(d)
  {
    forall i | 0 <= i < |data[0].priceTrend|
      ensures ChartRows(data)[i][DateKey] == DateLabel(data[0].priceTrend[i].date)
    {
      EntryDateLabel(data, data[0].priceTrend[i].date);
    }
  }

  /** Routes four apart share a colour; the first four colours are distinct. */
  lemma ColorsCycle(data: seq<RouteInfo>, i: nat)
    requires i + 4 < |data|
    ensures ChartLines(data)[i].stroke == ChartLines(data)[i + 4].stroke
  {
    assert (i + 4) % 4 == i % 4;
  }
}
