# Weather forecast proxy — Dafny model

A model of the pure logic of a small Gin HTTP server that answers
`GET /forecast/:lat/:long`. The handler resolves a forecast endpoint from the
National Weather Service points API, fetches that forecast, classifies the
first period's temperature as `hot`, `moderate` or `cold`, and writes the
result back as JSON. Network, body reading and JSON decoding are abstracted:
a `Upstream.Web` value says what `http.Get`, `io.ReadAll` and `json.Unmarshal`
return for each input, so every property holds for every network that answers
each URL consistently and for every decoder behaviour.

Modules:

- `Types` — Go's `int` (`int64`), `(value, error)` returns (`Ret`), panics
  (`Exec`), the decoded documents and the `ForecastData` payload.
- `Classifier` — `getTemperatureString`.
- `Format` — `fmt.Sprint` over string and non-string operands, the points
  URL built from it, and `SplitPointsUrl`, its partial inverse.
- `Upstream` — the three library steps behind each outbound call.
- `Forecast` — the endpoint resolver `getWeatherApiUrl`, the fetcher
  `getForecastData` and its first-period extraction.
- `Handler` — `getForecast` as a trace of events: each outbound GET, each
  `IndentedJSON(status, body)` call, and a panic.

The handler does not return after writing a 500. A failing resolver returns
`""`, so the fetcher still runs and issues a GET of the empty URL. Every run
that does not panic ends with a 200 write of the payload, which is the zero
`ForecastData` when fetching failed. A forecast document with no periods makes
the fetcher panic at `ForecastPeriods[0]`. The model keeps all three
behaviours.

The classifier's middle band is open at 80 (`temp > 60 && temp < 80`,
forecastServer.go:124), so 80 is labelled `cold` while 79 and 81 are
`moderate` and `hot`. `Classifier.EightyIsColderThanSeventyNine` states the
consequence: the label is not monotone at 80.

## Model

| member | source | states |
|---|---|---|
| Classifier.TemperatureString | forecastServer.go:121-129 | total; the label is one of hot/moderate/cold; hot iff t > 80, moderate iff 60 < t < 80, cold iff t <= 60 or t == 80 |
| Classifier.MonotoneAwayFromEighty | forecastServer.go:121-129 | for readings other than 80, a warmer reading never gets a colder label |
| Classifier.EightyIsColderThanSeventyNine | forecastServer.go:122-128 | 79 is moderate, 80 is cold and 81 is hot, so 80 ranks below 79 |
| Format.SprintOfStrings | forecastServer.go:70 | when every operand is a string, Sprint inserts no separators and equals the plain concatenation |
| Format.SprintSeparatesNonStrings | forecastServer.go:70 | Sprint puts one space between two adjacent non-string operands, the case line 70 avoids |
| Format.PointsUrl | forecastServer.go:70 | the lookup URL is exactly the prefix, lat, a comma and long; it starts with the prefix and ends with long |
| Format.SplitPointsUrl | forecastServer.go:70 | whatever coordinate it recovers rebuilds the given URL and has a comma-free latitude |
| Format.PointsUrlRoundTrip | forecastServer.go:70 | for a comma-free latitude, splitting the built URL gives back (lat, long) |
| Format.PointsUrlNotInjective | forecastServer.go:70 | without escaping, ("33,5", "1") and ("33", "5,1") give the same URL |
| Upstream.Retrieve | forecastServer.go:72-86 | succeeds iff GET, body read and decode all succeed, with the decoded value; otherwise carries the first failing step's error |
| Forecast.GetWeatherApiUrl | forecastServer.go:69-89 | on any failing step returns ("", err); otherwise the decoded forecast URL with a nil error |
| Forecast.ResolverReadsOnlyPointsUrl | forecastServer.go:70-72 | two networks that agree at the points URL give the same resolver result |
| Forecast.ExtractForecast | forecastServer.go:109-116 | the payload's summary is the first period's and its temperature is the first period's classified label |
| Forecast.OnlyFirstPeriodMatters | forecastServer.go:109-116 | period sequences with the same first period give the same payload |
| Forecast.ModerateSunnyExample | forecastServer.go:109-116 | a single 75-degree "Sunny" period gives ("moderate", "Sunny") |
| Forecast.GetForecastData | forecastServer.go:91-119 | a failing step gives the zero payload and that step's error; an empty period list panics; otherwise the first period, classified, with a nil error |
| Handler.GetForecast | forecastServer.go:54-67 | the first event is always the GET of the points URL |
| Handler.FetcherAlwaysCalled | forecastServer.go:58-62 | the handler always makes two GETs, the second to the resolver's URL, which is "" after a resolver error |
| Handler.ResolverFailureFallsThrough | forecastServer.go:58-62 | after a resolver error the 500 write is followed at once by a GET of "" |
| Handler.WriteSequence | forecastServer.go:58-66 | without a panic, the writes are the resolver's 500, then the fetcher's 500, each only when its error is set, then the 200 with the payload |
| Handler.FinalWriteIsOk | forecastServer.go:58-66 | without a panic, the last write is 200 with the payload; it is zero after a fetch error; there is one 500 per failed step, all before the 200 |
| Handler.PanicsOnEmptyPeriods | forecastServer.go:109 | the handler panics iff the forecast document decodes with no periods; the panic is then the last event and every write before it is a 500, so no 200 is written |
| Handler.SuccessPath | forecastServer.go:54-66 | when both steps succeed and there is a period, the only write is 200 with the classified first period |
| Handler.HotAndClearEndToEnd | forecastServer.go:54-66 | a forecast whose first period is 95 and "Clear" gives the single write 200 ("hot", "Clear") |

## Left out

- Network I/O (`http.Get`, `io.ReadAll`, `response.Body`): each is an arbitrary function of its input inside `Upstream.Web`. Timeouts, the response status code and closing the body are not modelled.
- Upstream.Web: a network that answers the same URL differently on two requests is not modelled; `get` is a function of the URL and `readAll` of the response. This matters only when `properties.forecast` equals the points URL.
- JSON decoding (`json.Unmarshal`) and the struct tags: the decoded `EndpointUrlResponse` and `ForecastResponse` come from `Web.decodePoints` and `Web.decodeForecast`. A missing `forecast` field decoding to `""` is one of the decoder behaviours this covers.
- Decoded fields that never reach an output (`updated`, `units`, `number`, `name`, `startTime`, `endTime`, `detailedForecast`, `@id`, `cwa`, `forecastOffice`, `gridX`, `gridY`, `forecastHourly`) are not represented.
- The `if err != nil` check at forecastServer.go:112-114 is dead code, because `err` is always nil there, and has no counterpart in `Forecast.GetForecastData`.
- Gin: routing, `main`, `router.Run("localhost:8080")`, what the client receives when `IndentedJSON` is called more than once, and how Gin's recovery middleware answers a panic. The model stops at the sequence of write calls and the panic event.
- Format.Sprint: non-string operands are given by their already-formatted `%v` text. Go's formatting of numbers and other values is not modelled, and line 70 passes none.
- Concurrency: each request is independent. Parallel dispatch belongs to Gin and net/http.
