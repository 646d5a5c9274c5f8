/**
 The three library steps both outbound calls go through: `http.Get`,
 `io.ReadAll(response.Body)` and `json.Unmarshal`. Their behaviour is not part
 of this model; a `Web` value fixes what each returns for each input, so every
 property below holds for every possible network and decoder behaviour.
 */
module Upstream {
  import opened Types

  /** An HTTP response; only its body is read. */
  datatype Response = Response(body: seq<byte>)

  datatype Web = Web(
    get: string -> Result<Response>,
    readAll: Response -> Result<seq<byte>>,
    decodePoints: seq<byte> -> Result<EndpointUrlResponse>,
    decodeForecast: seq<byte> -> Result<ForecastResponse>)

  /** GET `url`, read the whole body and decode it, stopping at the first
      step that reports an error. */
  function Retrieve<T>(web: Web, url: string, decode: seq<byte> -> Result<T>): (r: Result<T>)
    ensures r.Ok? <==>
      && web.get(url).Ok?
      && web.readAll(web.get(url).value).Ok?
      && decode(web.readAll(web.get(url).value).value).Ok?
    ensures web.get(url).Ok? && web.readAll(web.get(url).value).Ok? ==>
      r == decode(web.readAll(web.get(url).value).value)
    ensures web.get(url).Err? ==> r == Err(web.get(url).error)
    ensures web.get(url).Ok? && web.readAll(web.get(url).value).Err? ==>
      r == Err(web.readAll(web.get(url).value).error)
  {
    match web.get(url)
    case Err(e) => Err(e)
    case Ok(response) =>
      match web.readAll(response)
      case Err(e) => Err(e)
      case Ok(data) => decode(data)
  }
}
