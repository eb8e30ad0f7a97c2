# energychartsRdfAdapter in Dafny

The adapter serves electricity day-ahead prices from the energy-charts API
as RDF. A client asks `GET /prices` for a bidding zone and a period. The
server fetches the price series from `https://api.energy-charts.info/price`.
That fetch retries failed attempts with exponential backoff. The server then
answers in the format the client's Accept header prefers: the upstream JSON
unchanged, or an RDF graph. In the graph, every timestamp becomes one
`sosa:Observation` with:

- its result time as an `xsd:dateTime`;
- SMARD.de provenance and the CC BY 4.0 licence;
- a QUDT quantity value with the price converted from EUR/MWh to EUR/kWh.

The model is written in Dafny in seven modules. Each one follows a file of
the program:

- `Config` (`config.dfy`) holds the endpoint and namespace constants of
  `src/config.ts`.
- `Types` (`types.dfy`) holds the request and response records of
  `src/types.ts`.
- `Prices` (`prices.dfy`) models `pricesToRDF` of `src/prices.ts`. An n3
  `Writer` class collects statements. `PricesToRdf` runs the source's loop
  over the timestamps through `AddObservation` and is proved to produce
  `Graph`, the statement list. The lemmas state what the graph contains,
  position by position.
- `Client` (`client.dfy`) models `EnergyChartsClient` of `src/client.ts`.
  `BuildUrl` is the query-building loop. `FetchFromEndpoint` is the retry loop
  over a given sequence of attempt outcomes, proved to follow the retry
  policy `FollowsRetryPolicy`. `GetPrices` applies the bidding-zone default.
- `Server` (`server.dfy`) models content negotiation
  (`DetermineResponseFormat`) and the `/prices` handler of `server.ts`. The
  handler is a method that fills in a mutable `Response`.
- `Calendar` (`calendar.dfy`) is the ECMAScript day and time arithmetic
  behind `Date.prototype.toISOString`, which writes the result times. It is
  proved in both directions against `ParseIsoString`, a reference reader of
  the Date Time String Format that the program itself does not contain.
- `Numerals` (`numerals.dfy`) holds the decimal digit strings that
  `String(n)` and `toISOString` write.

IRIs are kept symbolic, as the `Prices.Name` datatype. `Prices.Iri` renders
them with the namespaces of `Config`.

## Model

| member | source | states |
|---|---|---|
| `Prices.PricesToRdf` | src/prices.ts:21-106 | The conversion succeeds exactly when every timestamp lies within ±8.64e15 ms of the epoch. Otherwise it throws the RangeError of `toISOString`. On success the writer has the seven prefixes and the requested content type, and its statements are exactly `Graph(unix_seconds, price)`: six per timestamp, in timestamp order. |
| `Prices.AddObservation` | src/prices.ts:41-106 | One loop iteration appends this observation's six statements to the writer, in the source's order, and changes nothing else. For a timestamp out of a Date's range, only the type statement is added and the iteration reports the throw. |
| `Prices.Writer.AddQuad` | src/prices.ts:47-51 | `addQuad` appends exactly one statement at the end. |
| `Prices.Writer.constructor` | src/prices.ts:27-38 | A new writer holds the given prefixes and format and no statements. |
| `Prices.Graph` | src/prices.ts:41-106 | The series yields exactly six statements per timestamp. |
| `Prices.GraphExtend` | src/prices.ts:41-42 | One more timestamp adds its observation at the end of the graph, with the price at the same index. |
| `Prices.GraphAt` | src/prices.ts:41-106 | Observation `i` occupies positions `6i..6i+5`. Observations therefore never interleave and keep the timestamps' order. |
| `Prices.GraphStatement` | src/prices.ts:43-105 | Statement `6i+k` has as subject the IRI of the `i`-th timestamp and the `k`-th predicate. Its object is one of: `sosa:Observation`; the result time `t*1000` ms typed `xsd:dateTime`; smard.de; CC BY 4.0; the creator literal; or a blank node typed `qudt:QuantityValue` in `CCY_EUR-PER-KiloW-HR`. The blank node's `xsd:float` value times 1000 is `price[i]`, or NaN when `price` has no entry `i`. |
| `Prices.PerKiloWattHour` | src/prices.ts:42-83 | The converted value times 1000 is the EUR/MWh price when the index is within the price series, and NaN otherwise. |
| `Prices.ObservationQuads` | src/prices.ts:46-105 | One observation is six statements. |
| `Prices.ObservationUriInjective` | src/prices.ts:43-44 | Two timestamps get the same observation IRI exactly when they are equal. |
| `Prices.CountObservationsAppend` | src/prices.ts:47-51 | Counting typed observations is additive over concatenated statement lists. |
| `Prices.OneObservationPerTimestamp` | src/prices.ts:46-51 | The graph types exactly as many `sosa:Observation`s as there are timestamps, repeated timestamps included. |
| `Prices.ResultTimeLexicalForm` | src/prices.ts:53-61 | For a timestamp of the years 1970-9999, the result time is typed `xsd:dateTime` and its text is `toISOString` of `t*1000` ms. That text has the shape `YYYY-MM-DDTHH:mm:ss.000Z` and reads back as exactly `t*1000` ms. |
| `Prices.ResultTimeExample` | tests/values_test.ts:7-32 | Timestamp 1704067200 is written `2024-01-01T00:00:00.000Z`. |
| `Prices.ResultTimeNextHour` | tests/values_test.ts:7-32 | One hour later, before 23:00, gives the same date and fields with the hour increased by one. The hourly series 00:00, 01:00, 02:00 follows from this. |
| `Prices.EmptySeries` | tests/values_test.ts:56-74 | An empty series produces no observation statement. |
| `Calendar.DayFromYearFormula` | src/prices.ts:58 | The year-by-year day count equals the closed form `365(y-1970) + floor((y-1969)/4) - floor((y-1901)/100) + floor((y-1601)/400)` of ECMA-262 DayFromYear. |
| `Calendar.DateTimeFromTimeInverse` | src/prices.ts:58 | Splitting an instant of 1970-9999 into fields gives valid fields that denote the same instant. |
| `Calendar.TimeFromDateTimeInverse` | src/prices.ts:58 | Valid fields denote an instant in range, and splitting that instant gives the same fields back. |
| `Calendar.DayNumberInverse` | src/prices.ts:58 | A valid date's day number is non-negative and decodes back to the same year, month and day. |
| `Calendar.ToIsoString` | src/prices.ts:58 | `toISOString` writes 24 characters. |
| `Calendar.ParseIsoStringInverse` | src/prices.ts:58 | Reading the written text of valid fields back with the reference parser of the Date Time String Format gives exactly those fields, so the text loses nothing. |
| `Calendar.ToIsoStringRoundTrip` | src/prices.ts:58 | `toISOString` of an instant has the ISO shape. It parses back to valid fields that denote the same instant. |
| `Calendar.WholeSecondsRoundTrip` | src/prices.ts:58 | For `t` whole seconds, the text ends in `.000Z` and parses back to exactly `t*1000` ms. |
| `Calendar.NextHourSameDay` | src/prices.ts:58 | Adding one hour before 23:00 only increases the hour field. |
| `Calendar.IsoStringExample` | tests/values_test.ts:30 | 1704067200000 ms is written `2024-01-01T00:00:00.000Z`. |
| `Numerals.IntToStringInjective` | src/prices.ts:43 | Distinct integers have distinct decimal texts. |
| `Numerals.NatToString` | src/prices.ts:43 | The decimal text of `n` is all digits, has no leading zero and reads back as `n`. |
| `Numerals.PaddedDigits` | src/prices.ts:58 | A zero-padded field has exactly its width in digits and reads back as the number. |
| `Client.EnergyChartsClient.constructor` | src/client.ts:9-17 | Omitted arguments default to `https://api.energy-charts.info/`, 3 retries and a 10000 ms timeout. |
| `Client.EnergyChartsClient.BuildUrl` | src/client.ts:80-98 | The URL is base + endpoint. Its search parameters are `QueryOf(params)`: one pair per defined entry, in entry order. Booleans are written `true`/`false`, arrays comma-joined and null as `""`. |
| `Client.QueryOfAppend` | src/client.ts:84-95 | Parameters are appended entry by entry: the pairs of a concatenation are the concatenated pairs. |
| `Client.QueryOfSingle` | src/client.ts:85-94 | An undefined value adds no pair; any other value adds exactly one pair under its key. |
| `Client.SplitJoinStrings` | src/client.ts:89-90 | Joining comma-free array elements with `,` loses nothing: splitting at commas gives the array back. |
| `Client.EnergyChartsClient.FetchFromEndpoint` | src/client.ts:25-75 | The URL is the one `buildUrl` produces. The run follows the retry policy. With `maxRetries < 1`, no attempt is made and "Unknown error occurred" is thrown. Otherwise: 1..maxRetries attempts; retries only after a non-ok status or a non-abort error; `Backoff(k)` slept after attempt k; the first ok body is returned; otherwise the last attempt's error is thrown, with a non-ok status becoming "HTTP error! Status: s, Message: text". |
| `Client.RetryPolicyDeterministic` | src/client.ts:33-74 | Given the attempt outcomes, the retry policy allows exactly one run. |
| `Client.StopsAtFirstDecisive` | src/client.ts:33-71 | The loop stops at the first ok response or AbortError, or at the last allowed attempt: it made k+1 attempts, slept k times and returns or rethrows that attempt's result. |
| `Client.AttemptError` | src/client.ts:45-54 | A non-ok status becomes an `Error` named "Error"; a thrown error is kept as is. |
| `Client.Outcome` | src/client.ts:52-61 | The loop returns a body exactly when the attempt it stopped at was ok. |
| `Client.BackoffBounds` | src/client.ts:65 | Every delay is between 1000 and 5000 ms. |
| `Client.BackoffMonotone` | src/client.ts:65 | Later attempts never wait less. |
| `Client.BackoffSchedule` | src/client.ts:65 | The delays are 1000, 2000 and 4000 ms, then 5000 ms from the fourth failed attempt on. |
| `Client.BiddingZone` | src/client.ts:105 | `bzn` is never empty. It is DE-LU exactly when absent, empty or DE-LU. |
| `Client.EnergyChartsClient.GetPrices` | src/client.ts:103-109 | The request goes to base + `price` with `bzn` (default DE-LU) first. `start` and `end` follow only when present, an empty text included. The run follows the retry policy. |
| `Server.Selected` | server.ts:63-72 | An acceptable media type gives JSON exactly for application/json, and is sent back verbatim as the content type. |
| `Server.DetermineResponseFormat` | server.ts:43-77 | The result is JSON exactly when the content type is application/json. Otherwise it is RDF with one of the six listed syntaxes. The content type is text/turtle or one of the client's media types. |
| `Server.FirstMatchDecides` | server.ts:63-73 | The first acceptable media type in priority order decides, whatever follows it. |
| `Server.NoMatchIsTurtle` | server.ts:75-76 | Without an acceptable media type, the empty list included, the answer is Turtle. |
| `Server.AppendAfterMatch` | server.ts:63-73 | Media types listed after an acceptable one never change the answer. |
| `Server.SearchParam` | server.ts:85-87 | `searchParams.get` is absent exactly when no pair has the name. Otherwise it is the value of the first pair with that name. |
| `Server.Response.constructor` | server.ts:80-107 | A new response holds the given status and headers and no body. |
| `Server.HandlePrices` | server.ts:80-107 | Upstream receives `bzn` (default DE-LU), `start` and `end` (default ""). The fetch follows the retry policy. When the fetch fails, or the RDF conversion throws on a timestamp out of a Date's range: status 500, the headers unchanged and the error body. On success: the status unchanged. JSON sets Content-Type to application/json and sends the prices as fetched. RDF sets Content-Type to the negotiated syntax, adds `Vary: Accept`, and sends the document with the seven prefixes and the statements `Graph(unix_seconds, price)`. |

## Left out

- Serialising the statements is left out: the n3 library's `Writer.end` for Turtle, N-Triples, N-Quads, TriG, N3 and JSON-LD, and with it the prefix abbreviation in the output text. The model ends at the ordered list of statements the writer holds, with its prefixes and requested content type. A serialisation error (the promise rejecting) is not modelled.
- `mapContentTypeToFormat` and `parseAcceptHeader` (src/format-utils.ts) are not part of this model. The content type is kept as the writer's format, and the handler receives the Accept header already parsed into a priority-ordered list.
- `Prices.PerKiloWattHour`: the value is the exact real `price / 1000`. `Number.prototype.toString` of an IEEE double, which gives its lexical form (for example `0.1`), is not modelled. Neither is floating-point rounding.
- `Prices.ResultTimeLexicalForm`: covered only for timestamps in the years 1970-9999. Other instants within ±8.64e15 ms of the epoch also get a text from `toISOString`, with a six-digit signed year outside 0000-9999. The model does not give that text; it only records that the conversion succeeds. Beyond ±8.64e15 ms the RangeError is modelled.
- `Prices.ResultTimeNextHour`: stated for one hour at a time. The source's tests use a three-hour series, which follows by applying it twice.
- The source does not check that `price` is as long as `unix_seconds`. The model follows the code: extra prices are ignored, and a missing price gives NaN. It does not raise a validation error.
- `Client.EnergyChartsClient.FetchFromEndpoint`: `maxRetries` is modelled as an integer, but in the source it is any JavaScript number. The retry policy, including "no sleep after the final attempt" and "every failed run throws inside the loop", is proved for integer counts only. A fractional count such as 2.5 is not modelled: when its attempts fail, the source fails attempt 2, sleeps 2000 ms, leaves the loop and throws `lastError` after it. `Infinity` is not modelled either: the source retries for ever.
- `Client.EnergyChartsClient.FetchFromEndpoint`: requires at least `maxRetries` attempt outcomes. The outcomes stand in for the network; the source has no such requirement.
- Also in `FetchFromEndpoint`: `fetch`, `setTimeout` and `AbortController` are not modelled. A timeout is a `Threw` outcome with an AbortError. Backoff delays are recorded, not waited. `console.log`/`console.warn` output is dropped.
- A thrown value that is not an `Error` (wrapped via `String(error)`) is not distinguished from a thrown `Error`. A body that fails to parse as JSON is a `Threw` outcome.
- The `URL` class is not modelled. No URL is parsed or percent-encoded: the URL is kept as the text `base + endpoint` and its ordered search-parameter pairs. Plain-object and non-integer number parameter values are not modelled.
- The shape of the upstream JSON is not checked at run time, in the source or in the model. A malformed body that makes the conversion throw (and so leads to status 500) is not modelled: the response is already a `PriceResponse` value.
- Header names are compared case-sensitively in the `Response` map. Oak's implicit status 200 is the response's initial status, which the handler leaves unchanged on success.
- The Oak application wiring, CORS, the `/` status endpoint, the port, the exported singleton client and `mod.ts` are not modelled. They hold no logic beyond configuration.
- `console.error` in the handler's catch block is not modelled.
