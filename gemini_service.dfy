/** The market-data provider (services/geminiService.ts): the mock-data
    generator and the decision logic of fetchAirlineMarketData. The Gemini
    call itself is a parameter `service`, the clock is `today` and the
    Math.random draws are the sequence `draws`. */
module GeminiService {
  import opened Types

  const TrendDays := 14
  const MockRouteCount := 4
  /** Math.random is called once per trend point, route after route. */
  const MockDrawCount := MockRouteCount * TrendDays
  const MockKey := "mock_key"
  const GenerationFailedMessage := "Failed to generate market data. Please try again."
  const InvalidStructureMessage := "Invalid data structure received from API."

  /** A value Math.random can return. */
  type Draw = r: real | 0.0 <= r < 1.0

  /** The origin and destination a fetch is made for. */
  datatype Query = Query(origin: string, destination: string)

  /** The parsed JSON reply as seen by the validation: each field is None
      when it is absent or falsy, Some when it is truthy (an empty array is
      truthy). */
  datatype ParsedJson = ParsedJson(routes: Option<seq<RouteInfo>>, kpis: Option<Kpis>)

  /** What the external model call delivers. CallFailed: the request was
      rejected. Malformed: the reply has no text, or its text is not JSON,
      or it is JSON null. Json: any other JSON value. */
  datatype ModelReply = CallFailed | Malformed | Json(value: ParsedJson)

  /** What the try block of fetchAirlineMarketData can throw: the client's
      rejection, a parse error, or the Error with InvalidStructureMessage. */
  datatype GenerationFailure = RequestRejected | ParseFailed | InvalidStructure

  /** Math.round: the nearest integer, halves rounded upwards. */
  function Round(x: real): (n: int)
    ensures x - 0.5 < n as real <= x + 0.5
  {
    (x + 0.5).Floor
  }

  /** One mock price: the base moved by up to 25 either way, rounded. */
  function MockPrice(basePrice: real, r: Draw): (p: real)
    ensures p.Floor as real == p
    ensures basePrice.Floor as real == basePrice ==> basePrice - 25.0 <= p <= basePrice + 25.0
  {
    var x := basePrice + (r - 0.5) * 50.0;
    if basePrice.Floor as real == basePrice then
      RoundNear(basePrice.Floor, x);
      Round(x) as real
    else
      Round(x) as real
  }

  /** A value within 25 of an integer rounds to an integer within 25 of it. */
  lemma RoundNear(b: int, x: real)
    requires b as real - 25.0 <= x < b as real + 25.0
    ensures b - 25 <= Round(x) <= b + 25
  {
    var n := Round(x);
    assert (n - b) as real < 25.5 && (n - b) as real > -25.5;
  }

  /** generatePriceTrend: 14 daily points starting today. */
  function GeneratePriceTrend(today: Day, basePrice: real, draws: seq<Draw>): (trend: seq<PriceDataPoint>)
    requires |draws| == TrendDays
    ensures |trend| == TrendDays
    ensures forall i :: 0 <= i < |trend| ==> trend[i].date == today + i
    ensures forall i :: 0 <= i < |trend| ==> trend[i].price.Floor as real == trend[i].price
    ensures basePrice.Floor as real == basePrice ==>
      forall i :: 0 <= i < |trend| ==> basePrice - 25.0 <= trend[i].price <= basePrice + 25.0
  {
    seq(TrendDays, i requires 0 <= i < TrendDays => PriceDataPoint(today + i, MockPrice(basePrice, draws[i])))
  }

  /** createMockData: a fixed roster of four routes with hard-coded KPIs. */
  function CreateMockData(today: Day, draws: seq<Draw>): (m: MarketData)
    requires |draws| == MockDrawCount
    ensures |m.routes| == MockRouteCount == m.kpis.totalRoutes
    ensures forall i :: 0 <= i < |m.routes| ==> |m.routes[i].priceTrend| == TrendDays
  {
    MarketData(
      [ RouteInfo("JFK-LAX-UA", "JFK", "LAX", "United", 120, 410.0, GeneratePriceTrend(today, 410.0, draws[0..14])),
        RouteInfo("JFK-LAX-DL", "JFK", "LAX", "Delta", 95, 425.0, GeneratePriceTrend(today, 425.0, draws[14..28])),
        RouteInfo("SFO-ORD-AA", "SFO", "ORD", "American", 80, 350.0, GeneratePriceTrend(today, 350.0, draws[28..42])),
        RouteInfo("SFO-ORD-UA", "SFO", "ORD", "United", 88, 340.0, GeneratePriceTrend(today, 340.0, draws[42..56])) ],
      Kpis(4, 385.0, "JFK-LAX", "United"))
  }

  /** The mock path is taken when the key is unset, empty or the placeholder:
      exactly three key values, and every other key goes to the service. */
  predicate UsesMockData(apiKey: Option<string>): (b: bool)
    ensures b <==> apiKey in {None, Some(""), Some(MockKey)}
  {
    apiKey.None? || apiKey.value == "" || apiKey.value == MockKey
  }

  /** The try block: parse the reply and check for truthy routes and kpis. */
  function GenerateFromReply(reply: ModelReply): (r: Result<MarketData, GenerationFailure>)
    ensures r.Ok? <==> reply.Json? && reply.value.routes.Some? && reply.value.kpis.Some?
    ensures r.Ok? ==> r.value.routes == reply.value.routes.value && r.value.kpis == reply.value.kpis.value
    ensures reply.Json? && r.Err? ==> r.error == InvalidStructure
  {
    match reply
    case CallFailed => Err(RequestRejected)
    case Malformed => Err(ParseFailed)
    case Json(data) =>
      if data.routes.None? || data.kpis.None? then Err(InvalidStructure)
      else Ok(MarketData(data.routes.value, data.kpis.value))
  }

  /** fetchAirlineMarketData: Ok is a resolved promise, Err(message) a
      rejection with an Error carrying that message. */
  function FetchAirlineMarketData(apiKey: Option<string>, query: Query, today: Day, draws: seq<Draw>,
                                  service: Query -> ModelReply): (r: Result<MarketData, string>)
    requires |draws| == MockDrawCount
    ensures UsesMockData(apiKey) ==> r.Ok?
    ensures r.Err? ==> r.error == GenerationFailedMessage
  {
    if UsesMockData(apiKey) then Ok(CreateMockData(today, draws))
    else
      match GenerateFromReply(service(query))
      case Ok(data) => Ok(data)
      case Err(failure) => Err(GenerationFailedMessage)
  }

  // ---------------------------------------------------------------------
  // The dispatch

  /** The mock path depends on nothing but the clock and the draws: the
      service is never consulted and the fetch never fails. */
  lemma MockPathSkipsService(apiKey: Option<string>, query: Query, today: Day, draws: seq<Draw>,
                             service1: Query -> ModelReply, service2: Query -> ModelReply)
    requires |draws| == MockDrawCount
    requires apiKey == None || apiKey == Some("") || apiKey == Some(MockKey)
    ensures FetchAirlineMarketData(apiKey, query, today, draws, service1)
         == FetchAirlineMarketData(apiKey, query, today, draws, service2)
         == Ok(CreateMockData(today, draws))
  {
  }

  /** Any other key consults the service with the query, whatever the clock
      and the draws; it succeeds exactly when the reply has truthy routes
      and kpis, and then returns them unchanged. */
  lemma ServicePathOutcome(apiKey: string, query: Query, today: Day, draws: seq<Draw>,
                           service: Query -> ModelReply)
    requires |draws| == MockDrawCount
    requires apiKey != "" && apiKey != MockKey
    ensures var r := FetchAirlineMarketData(Some(apiKey), query, today, draws, service);
      var reply := service(query);
      && (r.Ok? <==> reply.Json? && reply.value.routes.Some? && reply.value.kpis.Some?)
      && (r.Ok? ==> r.value == MarketData(reply.value.routes.value, reply.value.kpis.value))
      && (r.Err? ==> r.error == GenerationFailedMessage)
  {
  }

  /** The inner "Invalid data structure" message never reaches the caller. */
  lemma FailuresAreUniform(apiKey: Option<string>, query: Query, today: Day, draws: seq<Draw>,
                           service: Query -> ModelReply)
    requires |draws| == MockDrawCount
    ensures var r := FetchAirlineMarketData(apiKey, query, today, draws, service);
      r.Err? ==> r.error == GenerationFailedMessage && r.error != InvalidStructureMessage
  {
  }

  // ---------------------------------------------------------------------
  // The mock data

  /** Four routes, totalRoutes agrees with them, and each route's trend is
      14 consecutive days from today with integral prices within 25 of the
      route's averagePrice (which is the base its trend was drawn around). */
  lemma MockDataShape(today: Day, draws: seq<Draw>)
    requires |draws| == MockDrawCount
    ensures var m := CreateMockData(today, draws);
      && |m.routes| == MockRouteCount == m.kpis.totalRoutes
      && forall i :: 0 <= i < |m.routes| ==>
           var t := m.routes[i].priceTrend;
           && |t| == TrendDays
           && (forall k :: 0 <= k < |t| ==> t[k].date == today + k)
           && (forall k :: 0 <= k < |t| ==>
                 t[k].price.Floor as real == t[k].price &&
                 m.routes[i].averagePrice - 25.0 <= t[k].price <= m.routes[i].averagePrice + 25.0)
  {
  }

  /** Each id is "ORIGIN-DEST-CODE" with a two-letter code, and the ids are distinct. */
  lemma MockIds(today: Day, draws: seq<Draw>)
    requires |draws| == MockDrawCount
    ensures var rs := CreateMockData(today, draws).routes;
      && (forall i :: 0 <= i < |rs| ==>
            exists code :: |code| == 2 && rs[i].id == rs[i].origin + "-" + rs[i].destination + "-" + code)
      && (forall i, j :: 0 <= i < j < |rs| ==> rs[i].id != rs[j].id)
  {
    var rs := CreateMockData(today, draws).routes;
    assert rs[0].id == rs[0].origin + "-" + rs[0].destination + "-" + "UA";
    assert rs[1].id == rs[1].origin + "-" + rs[1].destination + "-" + "DL";
    assert rs[2].id == rs[2].origin + "-" + rs[2].destination + "-" + "AA";
    assert rs[3].id == rs[3].origin + "-" + rs[3].destination + "-" + "UA";
  }

  /** Per-airline totals of the mock roster: United 120 + 88, Delta 95,
      American 80, any other airline 0. */
  lemma MockAirlineFlights(today: Day, draws: seq<Draw>, airline: string)
    requires |draws| == MockDrawCount
    ensures AirlineFlights(CreateMockData(today, draws).routes, airline)
         == if airline == "United" then 208
            else if airline == "Delta" then 95
            else if airline == "American" then 80
            else 0
  {
    var rs := CreateMockData(today, draws).routes;
    assert rs[..1][..0] == [];
    assert rs[..2][..1] == rs[..1];
    assert rs[..3][..2] == rs[..2];
    assert rs[..4][..3] == rs[..3];
    assert rs[..4] == rs;
    var united := if airline == "United" then 1 else 0;
    assert AirlineFlights(rs[..1], airline) == 120 * united;
    assert AirlineFlights(rs[..2], airline) == 120 * united + (if airline == "Delta" then 95 else 0);
    assert AirlineFlights(rs[..3], airline)
        == 120 * united + (if airline == "Delta" then 95 else 0) + (if airline == "American" then 80 else 0);
  }

  /** The hard-coded mostPopularRoute and highestDemandAirline agree with the roster. */
  lemma MockKpisMatchRoutes(today: Day, draws: seq<Draw>)
    requires |draws| == MockDrawCount
    ensures var m := CreateMockData(today, draws);
      IsMostPopularRoute(m.routes, m.kpis.mostPopularRoute) &&
      IsHighestDemandAirline(m.routes, m.kpis.highestDemandAirline)
  {
    var m := CreateMockData(today, draws);
    assert RoutePair(m.routes[0]) == "JFK-LAX";
    MockAirlineFlights(today, draws, "United");
    forall i | 0 <= i < |m.routes|
      ensures AirlineFlights(m.routes, m.routes[i].airline) <= AirlineFlights(m.routes, "United")
    {
      MockAirlineFlights(today, draws, m.routes[i].airline);
    }
  }

  /** overallAveragePrice is the literal 385, not the mean 381.25 of the
      routes' averagePrice values. */
  lemma MockAveragePriceIsLiteral(today: Day, draws: seq<Draw>)
    requires |draws| == MockDrawCount
    ensures var m := CreateMockData(today, draws);
      MeanAveragePrice(m.routes) == 381.25 && m.kpis.overallAveragePrice == 385.0
  {
    var rs := CreateMockData(today, draws).routes;
    assert rs[..1][..0] == [];
    assert rs[..2][..1] == rs[..1];
    assert rs[..3][..2] == rs[..2];
    assert rs[..4][..3] == rs[..3];
    assert rs[..4] == rs;
    assert SumAveragePrice(rs[..1]) == 410.0;
    assert SumAveragePrice(rs[..2]) == 835.0;
    assert SumAveragePrice(rs[..3]) == 1185.0;
    assert SumAveragePrice(rs) == 1525.0;
  }
}
