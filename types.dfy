/** The record types of the dashboard (types.ts) and reference definitions
    of what each KPI field is meant to summarise. */
module Types {

  datatype Option<+T> = None | Some(value: T)

  datatype Result<+T, +E> = Ok(value: T) | Err(error: E)

  /** A calendar date as a day number. Two "YYYY-MM-DD" strings are equal
      exactly when they name the same day, so comparing day numbers is the
      same test as comparing the strings. */
  type Day = int

  datatype PriceDataPoint = PriceDataPoint(date: Day, price: real)

  datatype RouteInfo = RouteInfo(
    id: string,
    origin: string,
    destination: string,
    airline: string,
    flightCount: int,
    averagePrice: real,
    priceTrend: seq<PriceDataPoint>)

  datatype Kpis = Kpis(
    totalRoutes: int,
    overallAveragePrice: real,
    mostPopularRoute: string,
    highestDemandAirline: string)

  datatype MarketData = MarketData(routes: seq<RouteInfo>, kpis: Kpis)

  /** "ORIGIN-DEST", the form of mostPopularRoute. */
  function RoutePair(r: RouteInfo): string
  {
    r.origin + "-" + r.destination
  }

  /** Total flightCount of the routes flown by `airline`. */
  function AirlineFlights(routes: seq<RouteInfo>, airline: string): int
  {
    if |routes| == 0 then 0
    else AirlineFlights(routes[..|routes| - 1], airline)
         + (if routes[|routes| - 1].airline == airline then routes[|routes| - 1].flightCount else 0)
  }

  /** Sum of the routes' averagePrice values. */
  function SumAveragePrice(routes: seq<RouteInfo>): real
  {
    if |routes| == 0 then 0.0
    else SumAveragePrice(routes[..|routes| - 1]) + routes[|routes| - 1].averagePrice
  }

  /** The mean of the routes' averagePrice values, what overallAveragePrice describes. */
  function MeanAveragePrice(routes: seq<RouteInfo>): real
    requires |routes| > 0
  {
    SumAveragePrice(routes) / (|routes| as real)
  }

  /** `pair` is the "ORIGIN-DEST" of a route with the highest flightCount. */
  ghost predicate IsMostPopularRoute(routes: seq<RouteInfo>, pair: string)
  {
    exists i :: 0 <= i < |routes| && RoutePair(routes[i]) == pair &&
      forall j :: 0 <= j < |routes| ==> routes[j].flightCount <= routes[i].flightCount
  }

  /** `airline` flies some route and no airline has a larger total flightCount. */
  ghost predicate IsHighestDemandAirline(routes: seq<RouteInfo>, airline: string)
  {
    (exists i :: 0 <= i < |routes| && routes[i].airline == airline) &&
    forall i :: 0 <= i < |routes| ==>
      AirlineFlights(routes, routes[i].airline) <= AirlineFlights(routes, airline)
  }
}
