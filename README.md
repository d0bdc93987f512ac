# Airline market dashboard — a Dafny model of its data logic

The dashboard asks for a market dataset for an origin/destination pair and renders
it as KPI tiles, a price-trend chart, a demand chart and a routes table. This
project models the parts that transform data:

- **the market-data provider** (`GeminiService`), from `services/geminiService.ts`. When
  the API key is unset, empty or `"mock_key"`, it returns a mock dataset: a fixed
  roster of four routes with hard-coded KPIs, and for each route a 14-day price
  trend drawn around a base price. Otherwise it asks the Gemini model. It accepts
  the parsed reply only when its `routes` and `kpis` are truthy. Every failure
  becomes the single message "Failed to generate market data. Please try again.";
- **the price-change classifier and the table** (`RoutesTable`), from
  `components/RoutesTable.tsx`. It computes the percentage change from a trend's
  first price to its last, buckets it as increase, decrease or neutral, and picks
  the badge polarity: a rise is red, a fall is green. The table has one row per
  route;
- **the demand ranking** (`TopRoutesChart`), from `components/TopRoutesChart.tsx`. It
  is a stable descending sort by `flightCount` on a copy of the routes;
- **the trend pivot** (`PriceTrendChart`), from `components/PriceTrendChart.tsx`. There
  is one row per point of the first route's trend, each row maps airline names to
  that day's price, and line i gets colour `i mod 4`;
- **the dashboard state** (`Dashboard.DashboardState`), from `components/Dashboard.tsx`.
  It holds `marketData`, `loading`, `error` and `filters`, with the begin, succeed
  and fail transitions of `loadData`, the `handleSearch` and mount entry points, the
  KPI tile list and the render guard.

The record types of `types.ts` are the datatypes of module `Types`:

- prices are `real` and `flightCount` is `int`;
- a calendar date is a day number (`Day`). Two ISO date strings are equal exactly
  when they name the same day.

Things outside the program are parameters:

- the API key is `apiKey: Option<string>`;
- the clock is `today`;
- the `Math.random` results are `draws`, a sequence of reals in [0, 1) used in call
  order: 14 for each route, route after route;
- the Gemini call is a total function `service: Query -> ModelReply`. A reply is a
  rejected call, a malformed reply, or a parsed JSON value seen through its `routes`
  and `kpis` properties.

Where the prose design and the code differ, the model follows the code:

- The mock path always yields exactly 4 routes, not "2 to 4".
- The "Invalid data structure received from API." error is thrown inside the try
  block and replaced by the uniform message, so callers never see it.
- Validation only tests truthiness, so an empty `routes` array passes it.
- On the service path nothing checks that `totalRoutes` equals the number of routes.
  That equality is proved for the mock data only.
- A first price of 0 does not give "change 0". It gives an IEEE infinity or NaN,
  classified as increase, decrease or neutral by the sign of the last price. A
  negative first price flips the sign of the quotient, and the model keeps that
  flip.
- `overallAveragePrice` in the mock data is the literal 385. It is not the mean
  (381.25) of the routes' `averagePrice` values.

## Model

| member | source | states |
|---|---|---|
| `GeminiService.Round` | services/geminiService.ts:64 | `Math.round` gives the integer n with x − 0.5 < n ≤ x + 0.5 (halves go up) |
| `GeminiService.MockPrice` | services/geminiService.ts:64 | a mock price is an integer; for an integral base it lies in [base − 25, base + 25] |
| `GeminiService.RoundNear` | services/geminiService.ts:64 | a value within 25 of an integer b rounds into [b − 25, b + 25] |
| `GeminiService.GeneratePriceTrend` | services/geminiService.ts:58-66 | exactly 14 points; point i is dated today + i; prices are integers within 25 of an integral base |
| `GeminiService.CreateMockData` | services/geminiService.ts:56-82 | the fixed roster has exactly 4 routes, `totalRoutes` equals that count, and every trend has 14 points; the roster's further properties are MockDataShape, MockIds, MockAirlineFlights, MockKpisMatchRoutes and MockAveragePriceIsLiteral |
| `GeminiService.MockDataShape` | services/geminiService.ts:68-81 | the mock data has 4 routes and `totalRoutes` = 4; every trend has 14 consecutive days from today, with integral prices within 25 of that route's `averagePrice` |
| `GeminiService.MockIds` | services/geminiService.ts:76-79 | every mock id is ORIGIN-DEST-CODE with a two-letter code, and the four ids are pairwise distinct |
| `GeminiService.MockAirlineFlights` | services/geminiService.ts:76-79 | the summed flightCount of the mock roster is United 208, Delta 95, American 80, and 0 for any other airline |
| `GeminiService.MockKpisMatchRoutes` | services/geminiService.ts:72-79 | "JFK-LAX" is the origin-destination of a route with the maximum flightCount; "United" has the largest airline total |
| `GeminiService.MockAveragePriceIsLiteral` | services/geminiService.ts:71-80 | the mean of the routes' averagePrice is 381.25, while `overallAveragePrice` is the literal 385 |
| `GeminiService.UsesMockData` | services/geminiService.ts:85 | the mock path is taken for exactly three key values: unset, empty and "mock_key"; MockPathSkipsService and ServicePathOutcome state what each side of it returns |
| `GeminiService.GenerateFromReply` | services/geminiService.ts:112-120 | success iff the reply parsed to a value with truthy `routes` and `kpis`, and then those fields unchanged; a parsed reply that fails does so with InvalidStructure |
| `GeminiService.FetchAirlineMarketData` | services/geminiService.ts:84-125 | the mock path never fails; every failure carries the uniform message |
| `GeminiService.MockPathSkipsService` | services/geminiService.ts:85-88 | for an absent, empty or "mock_key" key, the result is the mock data whatever the service would reply |
| `GeminiService.ServicePathOutcome` | services/geminiService.ts:112-125 | for any other key: success iff the service's reply to the query has truthy `routes` and `kpis`, returning them unchanged; otherwise the uniform failure |
| `GeminiService.FailuresAreUniform` | services/geminiService.ts:116-124 | every failure is the message "Failed to generate market data. Please try again.", never the inner "Invalid data structure" one |
| `RoutesTable.PercentChange` | components/RoutesTable.tsx:19 | for a non-zero first price the change c satisfies c · first = (last − first) · 100; for a zero first price it is +∞, −∞ or NaN as last is positive, negative or zero |
| `RoutesTable.QuotientSign` | components/RoutesTable.tsx:19-22 | dividing by a positive number keeps the sign |
| `RoutesTable.CalculatePriceChange` | components/RoutesTable.tsx:15-24 | under 2 points: change 0, neutral; with a non-negative first price: increase iff last > first, decrease iff last < first, neutral iff equal (reversed for a negative first price); with a non-zero first price the change is the finite percentage |
| `RoutesTable.ChangeUsesEndpointsOnly` | components/RoutesTable.tsx:17-19 | two trends with the same first and last prices get the same change and type |
| `RoutesTable.ChangeExamples` | components/RoutesTable.tsx:16-22 | 100→120 is +20 increase, 100→80 is −20 decrease, 100→100 is 0 neutral, one point is 0 neutral |
| `RoutesTable.BadgeFor` | components/RoutesTable.tsx:50-56 | red with the up icon exactly for an increase, green with the down icon exactly for a decrease, grey without an icon exactly for neutral; BadgePolarity carries this back to the prices |
| `RoutesTable.BadgePolarity` | components/RoutesTable.tsx:50-56 | for a trend under 2 points or starting at a non-negative price: red with the up icon iff the price rose, green with the down icon iff it fell, grey without an icon otherwise |
| `RoutesTable.RowFor` | components/RoutesTable.tsx:41-45 | a row carries its route's id as key, its airline, endpoints, flightCount, averagePrice and change; for a trend starting at a non-negative price its badge is red iff the last price is above the first and green iff it is below |
| `RoutesTable.RoutesTableView` | components/RoutesTable.tsx:11-48 | missing or empty data gives "No route data available." and no rows; otherwise one row per route in input order, keyed by `id`, carrying its fields and its change |
| `TopRoutesChart.InsertByDemand` | components/TopRoutesChart.tsx:15 | inserting adds exactly the one route: one longer, and the multiset grows by it; InsertProperties and InsertStable give order and stability |
| `TopRoutesChart.SortByDemand` | components/TopRoutesChart.tsx:15 | the sorted copy is a permutation of the input of the same length; SortByDemandIsStableSort and StableSortIsSortByDemand give the rest |
| `TopRoutesChart.InsertBelowHead` | components/TopRoutesChart.tsx:15 | inserting a route of smaller count behind a descending sequence's head keeps every route at or below the head's count |
| `TopRoutesChart.InsertProperties` | components/TopRoutesChart.tsx:15 | inserting into a descending sequence keeps it descending and adds exactly that route |
| `TopRoutesChart.InsertStable` | components/TopRoutesChart.tsx:15 | an inserted route goes before every route of equal flightCount |
| `TopRoutesChart.SortByDemandIsStableSort` | components/TopRoutesChart.tsx:15 | the sorted copy has the same length, is a permutation, is non-increasing in flightCount, and keeps the input order within each flightCount |
| `TopRoutesChart.StableSortUnique` | components/TopRoutesChart.tsx:15 | two descending sequences with the same per-count subsequences are equal |
| `TopRoutesChart.StableSortIsSortByDemand` | components/TopRoutesChart.tsx:15 | every stable descending sort of the input equals the model's sort, so no particular stable algorithm is assumed |
| `TopRoutesChart.TopRoutesChartView` | components/TopRoutesChart.tsx:11-15 | missing or empty data gives "No demand data available."; otherwise the bars are a stable descending sort of the input |
| `TopRoutesChart.SortExample` | components/TopRoutesChart.tsx:15 | flight counts 80, 120, 95, 88 are charted as 120, 95, 88, 80 |
| `TopRoutesChart.MockDemandOrder` | components/TopRoutesChart.tsx:15 | the mock roster 120, 95, 80, 88 is charted as 120, 95, 88, 80 |
| `PriceTrendChart.Find` | components/PriceTrendChart.tsx:20 | None iff no point has the date; otherwise the first point with that date |
| `PriceTrendChart.Apply` | components/PriceTrendChart.tsx:19-23 | one callback step: the route's airline key is set to its first point's price on the date when it has one, and every other key keeps its value; EntryKeys and EntryValue lift this to the whole `forEach` |
| `PriceTrendChart.EntryFor` | components/PriceTrendChart.tsx:18-24 | every row keeps a "date" key |
| `PriceTrendChart.BuildEntry` | components/PriceTrendChart.tsx:18-25 | the `forEach` loop builds the specified entry for the row's date |
| `PriceTrendChart.EntryKeys` | components/PriceTrendChart.tsx:19-23 | for an airline other than "date": its key is present iff some route of that airline has a point on the date; a route with no such point adds no key |
| `PriceTrendChart.EntryValue` | components/PriceTrendChart.tsx:19-23 | an airline's value is the first matching point's price from that airline's last route that has one, so a later route overwrites an earlier one |
| `PriceTrendChart.EntryDateLabel` | components/PriceTrendChart.tsx:18-22 | the date label survives unless some airline is named "date" |
| `PriceTrendChart.EntryKeysBounded` | components/PriceTrendChart.tsx:18-23 | a row has no keys besides "date" and the routes' airlines |
| `PriceTrendChart.ChartLines` | components/PriceTrendChart.tsx:48-57 | one line per route, keyed by its id, plotting its airline, stroked with `colors[i mod 4]` |
| `PriceTrendChart.ChartRows` | components/PriceTrendChart.tsx:17-26 | one row per point of the first route, in its order, each the `forEach` entry for that point's date and each keeping a "date" key; RowsFollowFirstRoute states which labels the rows carry |
| `PriceTrendChart.TrendChart` | components/PriceTrendChart.tsx:13-26 | missing or empty data gives "No price data available."; otherwise one row per point of the first route, in its order, and one line per route |
| `PriceTrendChart.RenderPriceTrendChart` | components/PriceTrendChart.tsx:12-26 | the outer `map`, run as a loop, produces the specified chart |
| `PriceTrendChart.RowsFollowFirstRoute` | components/PriceTrendChart.tsx:17-22 | when no airline is named "date": the rows carry the first route's dates, in order; a date found only in other routes labels no row |
| `PriceTrendChart.ColorsCycle` | components/PriceTrendChart.tsx:10-53 | lines four routes apart share a colour |
| `Dashboard.ErrorText` | components/Dashboard.tsx:27-31 | an Error's message, or "An unknown error occurred." for any other thrown value |
| `Dashboard.Digits` | components/Dashboard.tsx:49 | the decimal digits of a number, with no leading zero |
| `Dashboard.DigitsRoundTrip` | components/Dashboard.tsx:49 | reading back the digits of n gives n |
| `Dashboard.IntToString` | components/Dashboard.tsx:49 | `toString` of an integer is a canonical numeral: digits with no leading zero, preceded by "-" exactly for a negative number; IntToStringRoundTrip and IntegerTextUnique tie it to the number |
| `Dashboard.NumeralIsDigits` | components/Dashboard.tsx:49 | a numeral without leading zeros is the digits of its own value |
| `Dashboard.IntegerTextUnique` | components/Dashboard.tsx:49 | a canonical integer text is exactly `toString` of the number it reads back as, so no other text ("04", "-0") can stand for it |
| `Dashboard.IntToStringRoundTrip` | components/Dashboard.tsx:49 | `toString` of an integer reads back as that integer |
| `Dashboard.KpiTiles` | components/Dashboard.tsx:48-53 | 4 tiles with market data and none without; the first is a canonical integer text that reads back as `totalRoutes` (hence, by IntegerTextUnique, exactly `totalRoutes.toString()`), the others carry the average price, the most popular route and the airline |
| `Dashboard.MockTotalRoutesTile` | components/Dashboard.tsx:49 | with the mock data the first tile is "Total Routes Tracked" = "4" |
| `Dashboard.ContentFor` | components/Dashboard.tsx:64-88 | the content block has four tiles, and each chart and the table shows data exactly when there are routes |
| `Dashboard.DashboardState.constructor` | components/Dashboard.tsx:15-18 | the initial state is filters JFK/LAX, loading true, no error and no market data |
| `Dashboard.DashboardState.BeginLoad` | components/Dashboard.tsx:21-22 | loading becomes true and the error is cleared; the data and filters are unchanged |
| `Dashboard.DashboardState.Succeed` | components/Dashboard.tsx:24-35 | the market data becomes the result, the error stays null, loading ends false |
| `Dashboard.DashboardState.Fail` | components/Dashboard.tsx:26-35 | the error becomes the thrown value's text, the market data becomes null, loading ends false |
| `Dashboard.DashboardState.LoadData` | components/Dashboard.tsx:20-36 | after a load, loading is false and the filters are unchanged; on success the data is the fetch result and there is no error; on failure the data is null and the error is the fetch's message; content is shown iff the fetch succeeded |
| `Dashboard.DashboardState.Mount` | components/Dashboard.tsx:38-41 | the first load uses the current filters |
| `Dashboard.DashboardState.HandleSearch` | components/Dashboard.tsx:43-46 | the new filters are stored, and the load is made with exactly their origin and destination |
| `Dashboard.DashboardState.ShowsContent` | components/Dashboard.tsx:64 | the guard implies market data is present; in a valid settled state it holds exactly when no error is stored |
| `Dashboard.DashboardState.Render` | components/Dashboard.tsx:57-64 | the loader shows iff loading; the error shows iff it is a non-empty string; the content (four tiles, the two charts and the table for the routes) shows iff not loading, no truthy error and data present; in a valid settled state the content shows exactly when no error is stored |

## Left out

- The Gemini client, the prompt text and the `responseSchema` object (services/geminiService.ts:11-54, 91-110) are a foreign call. The reply is the abstract `service` parameter.
- Inside a truthy `routes` or `kpis` field, the reply is assumed to have the schema's shape. The unchecked `data as MarketData` cast is not modelled for replies of any other shape.
- Reading `process.env` at module load, and the console logging (services/geminiService.ts:5-9, 86, 123). The key is a parameter.
- `Math.random`, `Date`, `setDate`, `toISOString`, time zones, and the `toLocaleDateString` label. The draws and `today` are parameters, dates are day numbers, and a row's label is its day number.
- GeneratePriceTrend and MockDataShape: "point i is dated today + i" and "14 consecutive days" hold of the model's day numbers only. In services/geminiService.ts:60-63 `setDate` steps in local time but `toISOString` prints the UTC date, so across a daylight-saving change two of the 14 ISO dates can name the same day. The chart's `find` then gives both rows the first of those points.
- IEEE-754 rounding. Prices and percentages are exact reals. Only the infinities and NaN that come from dividing by a first price of 0 are modelled.
- `toFixed` formatting of prices and percentages. The dollar tile carries the amount itself.
- Number `toString` for integers of 10^21 or more, where JavaScript switches to exponent notation.
- JSX, recharts, icons, CSS, KpiCard.tsx, Loader.tsx, App.tsx, the ErrorMessage component, and React's use of `key` for reconciliation.
- FilterBar.tsx. It is a form whose only logic is the library `toUpperCase`.
- Asynchronous scheduling in Dashboard.tsx. Each load runs to completion before the next begins, so the race in which an older request resolves last is not modelled.
