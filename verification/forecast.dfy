/**
 The two outbound steps of a request: the endpoint resolver
 (`getWeatherApiUrl`) and the forecast fetcher (`getForecastData`), with the
 library calls abstracted by `Upstream.Web`.
 */
module Forecast {
  import opened Types
  import opened Classifier
  import opened Format
  import opened Upstream

  /** The payload built from the first forecast period. */
  function ExtractForecast(periods: seq<Period>): (d: ForecastData)
    requires |periods| > 0
    ensures d.summary == periods[0].summary
    ensures d.temperature == TemperatureString(periods[0].temperature)
    ensures d.temperature in Labels
  {
    var latest := periods[0];
    ForecastData(TemperatureString(latest.temperature), latest.summary)
  }

  /** Periods after the first never affect the payload. */
  lemma OnlyFirstPeriodMatters(p: seq<Period>, q: seq<Period>)
    requires |p| > 0 && |q| > 0 && p[0] == q[0]
    ensures ExtractForecast(p) == ExtractForecast(q)
  {
  }

  /** The endpoint resolver: `("", err)` when any step fails, otherwise the
      decoded `properties.forecast` with a nil error. */
  function GetWeatherApiUrl(lat: string, long: string, web: Web): (r: Ret<string>)
    ensures r.err.Some? ==> r.value == ""
    ensures r.err.None? <==> Retrieve(web, PointsUrl(lat, long), web.decodePoints).Ok?
    ensures r.err.None? ==> r.value == Retrieve(web, PointsUrl(lat, long), web.decodePoints).value.forecast
    ensures r.err.Some? ==> r.err.value == Retrieve(web, PointsUrl(lat, long), web.decodePoints).error
  {
    match Retrieve(web, PointsUrl(lat, long), web.decodePoints)
    case Err(e) => Ret("", Some(e))
    case Ok(rd) => Ret(rd.forecast, None)
  }

  /** Only the response at the points URL matters to the resolver. */
  lemma ResolverReadsOnlyPointsUrl(lat: string, long: string, w1: Web, w2: Web)
    requires w1.get(PointsUrl(lat, long)) == w2.get(PointsUrl(lat, long))
    requires w1.readAll == w2.readAll && w1.decodePoints == w2.decodePoints
    ensures GetWeatherApiUrl(lat, long, w1) == GetWeatherApiUrl(lat, long, w2)
  {
  }

  /** The forecast fetcher. A failing step yields the zero payload with the
      error; a document with no periods panics at the index; otherwise the
      first period is classified and the error is nil. */
  function GetForecastData(url: string, web: Web): (x: Exec<Ret<ForecastData>>)
    ensures x.Panicked? <==>
      Retrieve(web, url, web.decodeForecast).Ok? && |Retrieve(web, url, web.decodeForecast).value.periods| == 0
    ensures x.Done? && x.value.err.Some? ==>
      x.value.value == ZeroForecastData && Retrieve(web, url, web.decodeForecast) == Err(x.value.err.value)
    ensures x.Done? && x.value.err.None? ==>
      Retrieve(web, url, web.decodeForecast).Ok? &&
      var periods := Retrieve(web, url, web.decodeForecast).value.periods;
      |periods| > 0 && x.value.value.summary == periods[0].summary
      && x.value.value.temperature == TemperatureString(periods[0].temperature)
  {
    match Retrieve(web, url, web.decodeForecast)
    case Err(e) => Done(Ret(ZeroForecastData, Some(e)))
    case Ok(fr) =>
      if |fr.periods| == 0 then Panicked
      else Done(Ret(ExtractForecast(fr.periods), None))
  }

  /** A single 75-degree "Sunny" period becomes `{"moderate", "Sunny"}`. */
  lemma ModerateSunnyExample()
    ensures ExtractForecast([Period(75, "Sunny")]) == ForecastData(Moderate, "Sunny")
  {
  }
}
