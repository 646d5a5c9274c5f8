/**
 The request handler `getForecast` as the sequence of observable events it
 causes: each outbound GET, each `IndentedJSON` write, and a panic. The
 handler records an error with a 500 write but never returns early, so a
 resolver failure still leads to a GET of the empty URL, and every run that
 does not panic ends with a 200 write of the (possibly zero) payload.
 */
module Handler {
  import opened Types
  import opened Classifier
  import opened Format
  import opened Upstream
  import opened Forecast

  const StatusOK := 200
  const StatusInternalServerError := 500

  /** What `IndentedJSON` is asked to serialise. */
  datatype Body = ErrorBody(err: Error) | DataBody(data: ForecastData)

  datatype Event = Get(url: string) | Write(status: int, body: Body) | Panic

  /** The 500 write issued for a non-nil error, or nothing. */
  function ErrorWrite(err: Option<Error>): seq<Event>
  {
    match err
    case None => []
    case Some(e) => [Write(StatusInternalServerError, ErrorBody(e))]
  }

  /** `getForecast` for the path parameters `lat` and `long`. */
  function GetForecast(lat: string, long: string, web: Web): (trace: seq<Event>)
    ensures |trace| >= 3
    ensures trace[0] == Get(PointsUrl(lat, long))
  {
    var resolved := GetWeatherApiUrl(lat, long, web);
    Resolution(PointsUrl(lat, long), resolved) + Completion(GetForecastData(resolved.value, web))
  }

  /** Events up to and including the fetcher's GET. */
  function Resolution(pointsUrl: string, resolved: Ret<string>): seq<Event>
  {
    [Get(pointsUrl)] + ErrorWrite(resolved.err) + [Get(resolved.value)]
  }

  /** Events after the fetcher's GET: a panic, or the fetcher's error write
      followed by the final 200. */
  function Completion(fetched: Exec<Ret<ForecastData>>): seq<Event>
  {
    match fetched
    case Panicked => [Panic]
    case Done(f) => ErrorWrite(f.err) + [Write(StatusOK, DataBody(f.value))]
  }

  /** The outbound GETs of a trace, in order. */
  function Gets(trace: seq<Event>): (urls: seq<string>)
    ensures |urls| <= |trace|
  {
    if |trace| == 0 then []
    else (if trace[0].Get? then [trace[0].url] else []) + Gets(trace[1..])
  }

  /** The `(status, body)` writes of a trace, in order. */
  function Writes(trace: seq<Event>): (ws: seq<Event>)
    ensures |ws| <= |trace|
    ensures forall i :: 0 <= i < |ws| ==> ws[i].Write?
  {
    if |trace| == 0 then []
    else (if trace[0].Write? then [trace[0]] else []) + Writes(trace[1..])
  }

  /** Number of 500 writes among `ws`. */
  function ErrorWrites(ws: seq<Event>): nat
  {
    if |ws| == 0 then 0
    else
      var here := if ws[0].Write? && ws[0].status == StatusInternalServerError then 1 else 0;
      here + ErrorWrites(ws[1..])
  }

  lemma {:induction false} GetsAppend(a: seq<Event>, b: seq<Event>)
    ensures Gets(a + b) == Gets(a) + Gets(b)
  {
    if |a| == 0 {
      assert a + b == b;
    } else {
      assert (a + b)[1..] == a[1..] + b;
      GetsAppend(a[1..], b);
    }
  }

  lemma {:induction false} WritesAppend(a: seq<Event>, b: seq<Event>)
    ensures Writes(a + b) == Writes(a) + Writes(b)
  {
    if |a| == 0 {
      assert a + b == b;
    } else {
      assert (a + b)[1..] == a[1..] + b;
      WritesAppend(a[1..], b);
    }
  }

  lemma {:induction false} ErrorWritesAppend(a: seq<Event>, b: seq<Event>)
    ensures ErrorWrites(a + b) == ErrorWrites(a) + ErrorWrites(b)
  {
    if |a| == 0 {
      assert a + b == b;
    } else {
      assert (a + b)[1..] == a[1..] + b;
      ErrorWritesAppend(a[1..], b);
    }
  }

  lemma ErrorWriteShape(err: Option<Error>)
    ensures Gets(ErrorWrite(err)) == []
    ensures Writes(ErrorWrite(err)) == ErrorWrite(err)
    ensures ErrorWrites(ErrorWrite(err)) == (if err.Some? then 1 else 0)
  {
    if err.Some? {
      var w := ErrorWrite(err);
      assert w[1..] == [];
    }
  }

  lemma SingletonShape(e: Event)
    ensures Gets([e]) == (if e.Get? then [e.url] else [])
    ensures Writes([e]) == (if e.Write? then [e] else [])
    ensures ErrorWrites([e]) == (if e.Write? && e.status == StatusInternalServerError then 1 else 0)
  {
    assert [e][1..] == [];
  }

  /** The handler always issues exactly two GETs, the second to whatever URL
      the resolver returned, which is "" when it failed: the fetcher runs
      even after a resolver error. */
  lemma FetcherAlwaysCalled(lat: string, long: string, web: Web)
    ensures Gets(GetForecast(lat, long, web)) == [PointsUrl(lat, long), GetWeatherApiUrl(lat, long, web).value]
    ensures GetWeatherApiUrl(lat, long, web).err.Some? ==> Gets(GetForecast(lat, long, web))[1] == ""
  {
    var resolved := GetWeatherApiUrl(lat, long, web);
    ResolutionGets(PointsUrl(lat, long), resolved);
    CompletionGets(GetForecastData(resolved.value, web));
    GetsAppend(Resolution(PointsUrl(lat, long), resolved), Completion(GetForecastData(resolved.value, web)));
  }

  lemma ResolutionGets(pointsUrl: string, resolved: Ret<string>)
    ensures Gets(Resolution(pointsUrl, resolved)) == [pointsUrl, resolved.value]
  {
    var e1 := [Get(pointsUrl)];
    var e2 := ErrorWrite(resolved.err);
    var e3 := [Get(resolved.value)];
    ErrorWriteShape(resolved.err);
    SingletonShape(e1[0]);
    SingletonShape(e3[0]);
    GetsAppend(e1, e2);
    GetsAppend(e1 + e2, e3);
  }

  lemma CompletionGets(fetched: Exec<Ret<ForecastData>>)
    ensures Gets(Completion(fetched)) == []
  {
    match fetched
    case Panicked =>
      SingletonShape(Panic);
    case Done(f) =>
      var e5 := [Write(StatusOK, DataBody(f.value))];
      ErrorWriteShape(f.err);
      SingletonShape(e5[0]);
      GetsAppend(ErrorWrite(f.err), e5);
  }

  lemma ResolutionWrites(pointsUrl: string, resolved: Ret<string>)
    ensures Writes(Resolution(pointsUrl, resolved)) == ErrorWrite(resolved.err)
  {
    var e1 := [Get(pointsUrl)];
    var e2 := ErrorWrite(resolved.err);
    var e3 := [Get(resolved.value)];
    ErrorWriteShape(resolved.err);
    SingletonShape(e1[0]);
    SingletonShape(e3[0]);
    WritesAppend(e1, e2);
    WritesAppend(e1 + e2, e3);
  }

  lemma CompletionWrites(f: Ret<ForecastData>)
    ensures Writes(Completion(Done(f))) == ErrorWrite(f.err) + [Write(StatusOK, DataBody(f.value))]
  {
    var e5 := [Write(StatusOK, DataBody(f.value))];
    ErrorWriteShape(f.err);
    SingletonShape(e5[0]);
    WritesAppend(ErrorWrite(f.err), e5);
  }

  /** When the fetcher does not panic, the writes are one 500 per failed step,
      in order, followed by a final 200 carrying the fetcher's payload (the
      zero payload when fetching failed). */
  lemma WriteSequence(lat: string, long: string, web: Web)
    requires GetForecastData(GetWeatherApiUrl(lat, long, web).value, web).Done?
    ensures var resolved := GetWeatherApiUrl(lat, long, web);
      var fetched := GetForecastData(resolved.value, web).value;
      Writes(GetForecast(lat, long, web))
        == ErrorWrite(resolved.err) + ErrorWrite(fetched.err) + [Write(StatusOK, DataBody(fetched.value))]
  {
    var resolved := GetWeatherApiUrl(lat, long, web);
    var x := GetForecastData(resolved.value, web);
    ResolutionWrites(PointsUrl(lat, long), resolved);
    CompletionWrites(x.value);
    WritesAppend(Resolution(PointsUrl(lat, long), resolved), Completion(x));
  }

  /** Shape of a write sequence made of optional error writes and a final 200. */
  lemma ErrorsThenOk(err1: Option<Error>, err2: Option<Error>, d: ForecastData)
    ensures var ws := ErrorWrite(err1) + ErrorWrite(err2) + [Write(StatusOK, DataBody(d))];
      && ws[|ws| - 1] == Write(StatusOK, DataBody(d))
      && ErrorWrites(ws) == (if err1.Some? then 1 else 0) + (if err2.Some? then 1 else 0)
      && forall i :: 0 <= i < |ws| - 1 ==> ws[i].status == StatusInternalServerError
  {
    var e2 := ErrorWrite(err1);
    var e4 := ErrorWrite(err2);
    var e5 := [Write(StatusOK, DataBody(d))];
    ErrorWriteShape(err1);
    ErrorWriteShape(err2);
    SingletonShape(e5[0]);
    ErrorWritesAppend(e2, e4);
    ErrorWritesAppend(e2 + e4, e5);
  }

  /** The last write is always a 200 with the payload, and there is one 500
      write for each step that failed, all before it. */
  lemma FinalWriteIsOk(lat: string, long: string, web: Web)
    requires GetForecastData(GetWeatherApiUrl(lat, long, web).value, web).Done?
    ensures var ws := Writes(GetForecast(lat, long, web));
      var resolved := GetWeatherApiUrl(lat, long, web);
      var fetched := GetForecastData(resolved.value, web).value;
      && |ws| > 0
      && ws[|ws| - 1] == Write(StatusOK, DataBody(fetched.value))
      && (fetched.err.Some? ==> fetched.value == ZeroForecastData)
      && ErrorWrites(ws) == (if resolved.err.Some? then 1 else 0) + (if fetched.err.Some? then 1 else 0)
      && forall i :: 0 <= i < |ws| - 1 ==> ws[i].status == StatusInternalServerError
  {
    var resolved := GetWeatherApiUrl(lat, long, web);
    var fetched := GetForecastData(resolved.value, web).value;
    WriteSequence(lat, long, web);
    ErrorsThenOk(resolved.err, fetched.err, fetched.value);
  }

  /** The handler panics exactly when every fetch step succeeds on a forecast
      document with no periods; the panic then replaces the 200 write. */
  lemma PanicsOnEmptyPeriods(lat: string, long: string, web: Web)
    ensures var url := GetWeatherApiUrl(lat, long, web).value;
      var doc := Retrieve(web, url, web.decodeForecast);
      Panic in GetForecast(lat, long, web) <==> doc.Ok? && |doc.value.periods| == 0
    ensures Panic in GetForecast(lat, long, web) ==>
      var trace := GetForecast(lat, long, web);
      && trace[|trace| - 1] == Panic
      && forall i :: 0 <= i < |trace| && trace[i].Write? ==> trace[i].status == StatusInternalServerError
  {
    var resolved := GetWeatherApiUrl(lat, long, web);
    var head := [Get(PointsUrl(lat, long))] + ErrorWrite(resolved.err) + [Get(resolved.value)];
    assert Panic !in head;
    match GetForecastData(resolved.value, web)
    case Panicked =>
      assert GetForecast(lat, long, web) == head + [Panic];
      assert forall i :: 0 <= i < |head| ==> head[i].Get? || head[i].status == StatusInternalServerError;
    case Done(fetched) =>
      assert Panic !in ErrorWrite(fetched.err);
  }

  /** A resolver failure is written as a 500 and then falls through: the very
      next event is a GET of the empty URL. */
  lemma ResolverFailureFallsThrough(lat: string, long: string, web: Web)
    requires GetWeatherApiUrl(lat, long, web).err.Some?
    ensures var trace := GetForecast(lat, long, web);
      && trace[1] == Write(StatusInternalServerError, ErrorBody(GetWeatherApiUrl(lat, long, web).err.value))
      && trace[2] == Get("")
  {
  }

  /** When both steps succeed and the forecast has a period, the client gets
      exactly one write: 200 with the classified first period. */
  lemma SuccessPath(lat: string, long: string, web: Web)
    requires GetWeatherApiUrl(lat, long, web).err.None?
    requires var doc := Retrieve(web, GetWeatherApiUrl(lat, long, web).value, web.decodeForecast);
      doc.Ok? && |doc.value.periods| > 0
    ensures var doc := Retrieve(web, GetWeatherApiUrl(lat, long, web).value, web.decodeForecast);
      Writes(GetForecast(lat, long, web)) == [Write(StatusOK, DataBody(ExtractForecast(doc.value.periods)))]
  {
    WriteSequence(lat, long, web);
  }

  /** End to end: a points lookup resolving to `forecastUrl` and a forecast
      whose first period is 95 degrees and "Clear" give a single 200 write of
      `{"Temperature": "hot", "Summary": "Clear"}`. */
  lemma HotAndClearEndToEnd(lat: string, long: string, web: Web, forecastUrl: string)
    requires Retrieve(web, PointsUrl(lat, long), web.decodePoints) == Ok(EndpointUrlResponse(forecastUrl))
    requires Retrieve(web, forecastUrl, web.decodeForecast) == Ok(ForecastResponse([Period(95, "Clear")]))
    ensures Writes(GetForecast(lat, long, web)) == [Write(StatusOK, DataBody(ForecastData(Hot, "Clear")))]
  {
    SuccessPath(lat, long, web);
  }
}
