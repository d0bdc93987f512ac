/** The routes table (components/RoutesTable.tsx): the percentage price
    change of each route's trend, its classification, the badge it is shown
    with, and one row per route. */
module RoutesTable {
  import opened Types

  const NoDataMessage := "No route data available."

  datatype TrendType = Increase | Decrease | Neutral

  /** The double that the percentage formula yields, rounding left out:
      dividing by a first price of 0 gives an infinity or NaN. */
  datatype Percent = Finite(value: real) | PositiveInfinity | NegativeInfinity | NaN

  datatype PriceChange = PriceChange(change: Percent, kind: TrendType)

  /** `change > 0` in JavaScript. */
  predicate IsPositive(p: Percent)
  {
    p.PositiveInfinity? || (p.Finite? && p.value > 0.0)
  }

  /** `change < 0` in JavaScript. */
  predicate IsNegative(p: Percent)
  {
    p.NegativeInfinity? || (p.Finite? && p.value < 0.0)
  }

  /** ((last - first) / first) * 100 under IEEE-754 division. */
  function PercentChange(first: real, last: real): (p: Percent)
    ensures first != 0.0 ==> p.Finite? && p.value * first == (last - first) * 100.0
    ensures first == 0.0 ==>
      (p.PositiveInfinity? <==> last > 0.0) && (p.NegativeInfinity? <==> last < 0.0) && (p.NaN? <==> last == 0.0)
  {
    if first != 0.0 then Finite((last - first) / first * 100.0)
    else if last - first > 0.0 then PositiveInfinity
    else if last - first < 0.0 then NegativeInfinity
    else NaN
  }

  lemma QuotientSign(q: real, f: real, d: real)
    requires f > 0.0 && q * f == d
    ensures (q > 0.0 <==> d > 0.0) && (q < 0.0 <==> d < 0.0)
  {
    if q > 0.0 { assert q * f > 0.0; }
    if q < 0.0 { assert q * f < 0.0; }
    if q == 0.0 { assert q * f == 0.0; }
  }

  /** calculatePriceChange. With a non-negative first price the type is
      the direction from the first to the last price; with a negative first
      price the sign of the quotient, and so the type, is reversed. */
  function CalculatePriceChange(trend: seq<PriceDataPoint>): (c: PriceChange)
    ensures |trend| < 2 ==> c == PriceChange(Finite(0.0), Neutral)
    ensures |trend| >= 2 && trend[0].price >= 0.0 ==>
      var first, last := trend[0].price, trend[|trend| - 1].price;
      && (c.kind == Increase <==> last > first)
      && (c.kind == Decrease <==> last < first)
      && (c.kind == Neutral <==> last == first)
    ensures |trend| >= 2 && trend[0].price < 0.0 ==>
      var first, last := trend[0].price, trend[|trend| - 1].price;
      && (c.kind == Increase <==> last < first)
      && (c.kind == Decrease <==> last > first)
      && (c.kind == Neutral <==> last == first)
    ensures |trend| >= 2 && trend[0].price != 0.0 ==>
      c.change.Finite? && c.change.value * trend[0].price == (trend[|trend| - 1].price - trend[0].price) * 100.0
  {
    if |trend| < 2 then PriceChange(Finite(0.0), Neutral)
    else
      var first, last := trend[0].price, trend[|trend| - 1].price;
      var change := PercentChange(first, last);
      if first > 0.0 then
        QuotientSign(change.value, first, (last - first) * 100.0);
        PriceChange(change, if IsPositive(change) then Increase else if IsNegative(change) then Decrease else Neutral)
      else if first < 0.0 then
        QuotientSign(-change.value, -first, (last - first) * 100.0);
        PriceChange(change, if IsPositive(change) then Increase else if IsNegative(change) then Decrease else Neutral)
      else
        PriceChange(change, if IsPositive(change) then Increase else if IsNegative(change) then Decrease else Neutral)
  }

  /** Only the first and the last price matter. */
  lemma ChangeUsesEndpointsOnly(t1: seq<PriceDataPoint>, t2: seq<PriceDataPoint>)
    requires |t1| >= 2 && |t2| >= 2
    requires t1[0].price == t2[0].price && t1[|t1| - 1].price == t2[|t2| - 1].price
    ensures CalculatePriceChange(t1) == CalculatePriceChange(t2)
  {
  }

  /** 100 to 120 is +20% and an increase, 100 to 80 is -20% and a decrease,
      100 to 100 is 0% and neutral, a single point is 0% and neutral. */
  lemma ChangeExamples(d: Day)
    ensures CalculatePriceChange([PriceDataPoint(d, 100.0), PriceDataPoint(d + 1, 120.0)])
         == PriceChange(Finite(20.0), Increase)
    ensures CalculatePriceChange([PriceDataPoint(d, 100.0), PriceDataPoint(d + 1, 80.0)])
         == PriceChange(Finite(-20.0), Decrease)
    ensures CalculatePriceChange([PriceDataPoint(d, 100.0), PriceDataPoint(d + 1, 100.0)])
         == PriceChange(Finite(0.0), Neutral)
    ensures CalculatePriceChange([PriceDataPoint(d, 100.0)]) == PriceChange(Finite(0.0), Neutral)
  {
  }

  // ---------------------------------------------------------------------
  // The badge: a price increase is unfavourable (red), a decrease favourable (green).

  datatype Tone = Red | Green | Grey
  datatype Icon = TrendingUp | TrendingDown | NoIcon
  datatype Badge = Badge(tone: Tone, icon: Icon)

  /** The tone and the icon agree, and each names exactly one trend kind. */
  function BadgeFor(kind: TrendType): (b: Badge)
    ensures (b.tone == Red <==> kind == Increase) && (b.icon == TrendingUp <==> kind == Increase)
    ensures (b.tone == Green <==> kind == Decrease) && (b.icon == TrendingDown <==> kind == Decrease)
    ensures (b.tone == Grey <==> kind == Neutral) && (b.icon == NoIcon <==> kind == Neutral)
  {
    match kind
    case Increase => Badge(Red, TrendingUp)
    case Decrease => Badge(Green, TrendingDown)
    case Neutral => Badge(Grey, NoIcon)
  }

  /** For a trend that starts at a non-negative price: red with the up icon
      exactly when the price rose, green with the down icon exactly when it
      fell, grey without an icon otherwise (and for trends under 2 points). */
  lemma BadgePolarity(trend: seq<PriceDataPoint>)
    requires |trend| < 2 || trend[0].price >= 0.0
    ensures var b := BadgeFor(CalculatePriceChange(trend).kind);
      var rose := |trend| >= 2 && trend[|trend| - 1].price > trend[0].price;
      var fell := |trend| >= 2 && trend[|trend| - 1].price < trend[0].price;
      && (b.tone == Red <==> rose) && (b.icon == TrendingUp <==> rose)
      && (b.tone == Green <==> fell) && (b.icon == TrendingDown <==> fell)
      && (b.tone == Grey <==> !rose && !fell) && (b.icon == NoIcon <==> !rose && !fell)
  {
  }

  // ---------------------------------------------------------------------
  // The table

  datatype Row = Row(
    key: string,
    airline: string,
    origin: string,
    destination: string,
    flightCount: int,
    averagePrice: real,
    trend: PriceChange,
    badge: Badge)

  datatype TableView = NoRoutes(message: string) | Table(rows: seq<Row>)

  /** A row shows the route's own fields, and for a trend starting at a
      non-negative price its badge is red exactly when the last price is
      above the first and green exactly when it is below. */
  function RowFor(route: RouteInfo): (r: Row)
    ensures r.key == route.id && r.airline == route.airline
    ensures r.origin == route.origin && r.destination == route.destination
    ensures r.flightCount == route.flightCount && r.averagePrice == route.averagePrice
    ensures r.trend == CalculatePriceChange(route.priceTrend)
    ensures var t := route.priceTrend;
      |t| >= 2 && t[0].price >= 0.0 ==>
        && (r.badge.tone == Red <==> t[|t| - 1].price > t[0].price)
        && (r.badge.tone == Green <==> t[|t| - 1].price < t[0].price)
  {
    var trend := CalculatePriceChange(route.priceTrend);
    Row(route.id, route.airline, route.origin, route.destination, route.flightCount,
        route.averagePrice, trend, BadgeFor(trend.kind))
  }

  /** The table for `data` (None stands for a missing prop): a message when
      there are no routes, otherwise one row per route, in input order,
      keyed by the route's id. */
  function RoutesTableView(data: Option<seq<RouteInfo>>): (v: TableView)
    ensures v.NoRoutes? <==> data.None? || |data.value| == 0
    ensures v.NoRoutes? ==> v.message == NoDataMessage
    ensures v.Table? ==> |v.rows| == |data.value|
    ensures v.Table? ==> forall i :: 0 <= i < |v.rows| ==>
        && v.rows[i].key == data.value[i].id
        && v.rows[i].airline == data.value[i].airline
        && v.rows[i].origin == data.value[i].origin
        && v.rows[i].destination == data.value[i].destination
        && v.rows[i].flightCount == data.value[i].flightCount
        && v.rows[i].averagePrice == data.value[i].averagePrice
        && v.rows[i].trend == CalculatePriceChange(data.value[i].priceTrend)
        && v.rows[i].badge == BadgeFor(v.rows[i].trend.kind)
  {
    if data.None? || |data.value| == 0 then NoRoutes(NoDataMessage)
    else
      var routes := data.value;
      Table(seq(|routes|, i requires 0 <= i < |routes| => RowFor(routes[i])))
  }
}
