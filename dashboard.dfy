/** The dashboard (components/Dashboard.tsx): its four pieces of state, the
    load transitions that update them, the KPI tiles and the render guard.
    The awaited fetch is modelled as a call that returns before the next
    statement runs. */
module Dashboard {
  import opened Types
  import GeminiService
  import RoutesTable
  import TopRoutesChart
  import PriceTrendChart

  const UnknownErrorMessage := "An unknown error occurred."
  const InitialFilters := GeminiService.Query("JFK", "LAX")

  /** A value a rejected promise carries: an Error object or anything else. */
  datatype Thrown = ErrorObject(message: string) | OtherValue

  /** What the catch block stores as the error text. */
  function ErrorText(err: Thrown): (text: string)
    ensures err.ErrorObject? ==> text == err.message
    ensures err.OtherValue? ==> text == UnknownErrorMessage
  {
    match err
    case ErrorObject(message) => message
    case OtherValue => UnknownErrorMessage
  }

  /** Everything outside the component that a load depends on: the API key,
      the clock and random draws of the mock path, and the Gemini service. */
  datatype Environment = Environment(
    apiKey: Option<string>,
    today: Day,
    draws: seq<GeminiService.Draw>,
    service: GeminiService.Query -> GeminiService.ModelReply)

  // ---------------------------------------------------------------------
  // Number.prototype.toString on integers

  function DigitChar(d: nat): (c: char)
    requires d < 10
    ensures '0' <= c <= '9'
  {
    ('0' as int + d) as char
  }

  /** The decimal digits of n, without leading zeros. */
  function Digits(n: nat): (s: string)
    ensures |s| > 0 && forall i :: 0 <= i < |s| ==> '0' <= s[i] <= '9'
    ensures |s| > 1 ==> s[0] != '0'
  {
    if n < 10 then [DigitChar(n)] else Digits(n / 10) + [DigitChar(n % 10)]
  }

  /** A decimal numeral: digits only, with no leading zero. */
  predicate IsNumeral(s: string)
  {
    |s| > 0 && (forall i :: 0 <= i < |s| ==> '0' <= s[i] <= '9') && (|s| > 1 ==> s[0] != '0')
  }

  /** The form toString gives an integer: a numeral, or "-" and a numeral other than "0". */
  predicate IsIntegerText(s: string)
  {
    IsNumeral(s) || (|s| > 1 && s[0] == '-' && IsNumeral(s[1..]) && s[1..] != "0")
  }

  /** Number.prototype.toString on an integer: the canonical numeral, with a
      leading "-" exactly for a negative number. */
  function IntToString(n: int): (s: string)
    ensures IsIntegerText(s)
    ensures s[0] == '-' <==> n < 0
  {
    if n < 0 then
      var d := Digits(-n);
      assert ("-" + d)[1..] == d;
      "-" + d
    else Digits(n)
  }

  /** The value of a string of decimal digits. */
  function DigitsValue(s: string): int
  {
    if |s| == 0 then 0 else DigitsValue(s[..|s| - 1]) * 10 + (s[|s| - 1] as int - '0' as int)
  }

  /** Reading a number back from its digits. */
  function ParseInt(s: string): int
  {
    if |s| > 0 && s[0] == '-' then -DigitsValue(s[1..]) else DigitsValue(s)
  }

  lemma {:induction false} DigitsRoundTrip(n: nat)
    ensures DigitsValue(Digits(n)) == n
  {
    if n >= 10 {
      DigitsRoundTrip(n / 10);
      var s := Digits(n / 10) + [DigitChar(n % 10)];
      assert s[..|s| - 1] == Digits(n / 10);
    }
  }

  /** A numeral is the Digits of its value. */
  lemma {:induction false} NumeralIsDigits(s: string)
    requires IsNumeral(s)
    ensures DigitsValue(s) >= 0
    ensures s == Digits(DigitsValue(s))
  {
    var c := s[|s| - 1];
    if |s| == 1 {
      assert DigitsValue(s) == DigitsValue(s[..0]) * 10 + (c as int - '0' as int);
      assert DigitChar(c as int - '0' as int) == c;
    } else {
      var p := s[..|s| - 1];
      assert p[0] == s[0];
      NumeralIsDigits(p);
      LeadingDigitPositive(p);
      var v := DigitsValue(s);
      assert v == DigitsValue(p) * 10 + (c as int - '0' as int);
      assert v / 10 == DigitsValue(p) && v % 10 == c as int - '0' as int;
      assert DigitChar(v % 10) == c;
      assert s == p + [c];
    }
  }

  /** A numeral that does not start with '0' has a positive value. */
  lemma {:induction false} LeadingDigitPositive(s: string)
    requires IsNumeral(s) && s[0] != '0'
    ensures DigitsValue(s) > 0
  {
    if |s| > 1 {
      var p := s[..|s| - 1];
      assert p[0] == s[0];
      LeadingDigitPositive(p);
    } else {
      assert s[..0] == [];
    }
  }

  /** Canonical integer text is determined by the integer it reads back as,
      so it is exactly what toString gives. */
  lemma IntegerTextUnique(s: string)
    requires IsIntegerText(s)
    ensures s == IntToString(ParseInt(s))
  {
    if s[0] == '-' {
      var t := s[1..];
      NumeralIsDigits(t);
      if |t| == 1 {
        assert t == [t[0]];
      }
      LeadingDigitPositive(t);
      assert s == "-" + t;
    } else {
      NumeralIsDigits(s);
    }
  }

  /** The text of an integer tile reads back as the integer. */
  lemma IntToStringRoundTrip(n: int)
    ensures ParseInt(IntToString(n)) == n
  {
    if n < 0 {
      DigitsRoundTrip(-n);
      assert ("-" + Digits(-n))[1..] == Digits(-n);
    } else {
      DigitsRoundTrip(n);
    }
  }

  // ---------------------------------------------------------------------
  // The KPI tiles

  /** A tile value; the dollar amount is shown with two decimals. */
  datatype TileValue = Text(text: string) | Dollars(amount: real)

  datatype Kpi = Kpi(title: string, value: TileValue)

  /** The `kpis` list: four tiles when market data is present, none otherwise. */
  function KpiTiles(marketData: Option<MarketData>): (tiles: seq<Kpi>)
    ensures marketData.None? ==> tiles == []
    ensures marketData.Some? ==> |tiles| == 4
    ensures marketData.Some? ==>
      var k := marketData.value.kpis;
      && tiles[0].value.Text? && IsIntegerText(tiles[0].value.text)
      && ParseInt(tiles[0].value.text) == k.totalRoutes
      && tiles[1].value == Dollars(k.overallAveragePrice)
      && tiles[2].value == Text(k.mostPopularRoute)
      && tiles[3].value == Text(k.highestDemandAirline)
  {
    match marketData
    case None => []
    case Some(data) =>
      IntToStringRoundTrip(data.kpis.totalRoutes);
      [ Kpi("Total Routes Tracked", Text(IntToString(data.kpis.totalRoutes))),
        Kpi("Overall Average Price", Dollars(data.kpis.overallAveragePrice)),
        Kpi("Most Popular Route", Text(data.kpis.mostPopularRoute)),
        Kpi("Highest Demand Airline", Text(data.kpis.highestDemandAirline)) ]
  }

  /** With the mock data the first tile reads "4". */
  lemma MockTotalRoutesTile(today: Day, draws: seq<GeminiService.Draw>)
    requires |draws| == GeminiService.MockDrawCount
    ensures KpiTiles(Some(GeminiService.CreateMockData(today, draws)))[0] == Kpi("Total Routes Tracked", Text("4"))
  {
  }

  // ---------------------------------------------------------------------
  // What is rendered

  /** A string or null in a JSX `&&` guard: null and "" are falsy. */
  predicate Truthy(s: Option<string>)
  {
    s.Some? && s.value != ""
  }

  datatype Content = Content(
    tiles: seq<Kpi>,
    priceTrends: PriceTrendChart.TrendChartView,
    demand: TopRoutesChart.DemandChartView,
    table: RoutesTable.TableView)

  datatype View = View(loader: bool, errorMessage: Option<string>, content: Option<Content>)

  /** The content block: four tiles, and the two charts and the table each
      show data exactly when there are routes. */
  function ContentFor(data: MarketData): (c: Content)
    ensures |c.tiles| == 4
    ensures c.priceTrends.LineChart? <==> |data.routes| > 0
    ensures c.demand.BarChart? <==> |data.routes| > 0
    ensures c.table.Table? <==> |data.routes| > 0
  {
    Content(KpiTiles(Some(data)),
            PriceTrendChart.TrendChart(Some(data.routes)),
            TopRoutesChart.TopRoutesChartView(Some(data.routes)),
            RoutesTable.RoutesTableView(Some(data.routes)))
  }

  class DashboardState {
    var marketData: Option<MarketData>
    var loading: bool
    var error: Option<string>
    var filters: GeminiService.Query

    /** Data and error never coexist, and once a load has settled one of them is set. */
    ghost predicate Valid()
      reads this
    {
      && (error.Some? ==> marketData.None?)
      && (!loading ==> marketData.Some? || error.Some?)
    }

    /** The useState initial values. */
    constructor ()
      ensures Valid()
      ensures filters == InitialFilters && loading && error == None && marketData == None
    {
      marketData := None;
      loading := true;
      error := None;
      filters := InitialFilters;
    }

    /** setLoading(true); setError(null). */
    method BeginLoad()
      requires Valid()
      modifies this
      ensures Valid()
      ensures loading && error == None
      ensures marketData == old(marketData) && filters == old(filters)
    {
      loading := true;
      error := None;
    }

    /** setMarketData(data), then the finally block. */
    method Succeed(data: MarketData)
      requires Valid() && loading && error == None
      modifies this
      ensures Valid()
      ensures marketData == Some(data) && error == None && !loading && filters == old(filters)
    {
      marketData := Some(data);
      loading := false;
    }

    /** The catch block, then the finally block. */
    method Fail(err: Thrown)
      requires Valid() && loading
      modifies this
      ensures Valid()
      ensures error == Some(ErrorText(err)) && marketData == None && !loading && filters == old(filters)
    {
      error := Some(ErrorText(err));
      marketData := None;
      loading := false;
    }

    /** loadData: begin, fetch, then succeed or fail. */
    method LoadData(origin: string, destination: string, env: Environment)
      requires Valid() && |env.draws| == GeminiService.MockDrawCount
      modifies this
      ensures Valid()
      ensures var r := GeminiService.FetchAirlineMarketData(
                env.apiKey, GeminiService.Query(origin, destination), env.today, env.draws, env.service);
        && !loading && filters == old(filters)
        && (r.Ok? ==> marketData == Some(r.value) && error == None)
        && (r.Err? ==> marketData == None && error == Some(r.error))
        && (ShowsContent() <==> r.Ok?)
        && (Truthy(error) <==> r.Err?)
    {
      BeginLoad();
      var r := GeminiService.FetchAirlineMarketData(
        env.apiKey, GeminiService.Query(origin, destination), env.today, env.draws, env.service);
      match r
      case Ok(data) => Succeed(data);
      case Err(message) => Fail(ErrorObject(message));
    }

    /** The mount effect: one load with the initial filters. */
    method Mount(env: Environment)
      requires Valid() && |env.draws| == GeminiService.MockDrawCount
      modifies this
      ensures Valid()
      ensures var r := GeminiService.FetchAirlineMarketData(env.apiKey, old(filters), env.today, env.draws, env.service);
        && !loading && filters == old(filters)
        && (r.Ok? ==> marketData == Some(r.value) && error == None)
        && (r.Err? ==> marketData == None && error == Some(r.error))
    {
      LoadData(filters.origin, filters.destination, env);
    }

    /** handleSearch: store the filters, then load exactly them. */
    method HandleSearch(newFilters: GeminiService.Query, env: Environment)
      requires Valid() && |env.draws| == GeminiService.MockDrawCount
      modifies this
      ensures Valid()
      ensures var r := GeminiService.FetchAirlineMarketData(env.apiKey, newFilters, env.today, env.draws, env.service);
        && filters == newFilters && !loading
        && (r.Ok? ==> marketData == Some(r.value) && error == None)
        && (r.Err? ==> marketData == None && error == Some(r.error))
    {
      filters := newFilters;
      LoadData(newFilters.origin, newFilters.destination, env);
    }

    /** `!loading && !error && marketData`: once a load has settled in a
        valid state, the content shows exactly when no error is stored. */
    predicate ShowsContent(): (b: bool)
      reads this
      ensures b ==> marketData.Some?
      ensures Valid() && !loading ==> (b <==> error.None?)
    {
      !loading && !Truthy(error) && marketData.Some?
    }

    /** The rendered dashboard: the loader while loading, the error when it
        is a non-empty string, and the content only when neither applies
        and market data is present. */
    function Render(): (v: View)
      reads this
      ensures v.loader <==> loading
      ensures v.errorMessage.Some? <==> error.Some? && error.value != ""
      ensures v.errorMessage.Some? ==> v.errorMessage == error
      ensures v.content.Some? <==> !loading && (error.None? || error.value == "") && marketData.Some?
      ensures v.content.Some? ==> |v.content.value.tiles| == 4 && v.content.value == ContentFor(marketData.value)
      ensures Valid() && !loading ==> (v.content.Some? <==> error.None?)
    {
      View(loading,
           if Truthy(error) then error else None,
           if ShowsContent() then Some(ContentFor(marketData.value)) else None)
    }
  }
}
