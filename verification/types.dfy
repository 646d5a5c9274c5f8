/**
 The values that flow through one forecast request: Go's scalar widths, its
 (value, error) return convention, panics, and the decoded payloads that the
 server reads. Fields of the upstream JSON documents that never influence an
 output are not represented.
 */
module Types {

  /** Go's `int`, taken as 64-bit. */
  newtype int64 = x: int | -0x8000_0000_0000_0000 <= x < 0x8000_0000_0000_0000

  newtype byte = b: int | 0 <= b < 0x100

  datatype Option<T> = None | Some(value: T)

  /** An opaque Go `error`; only its identity is observable here. */
  datatype Error = Error(message: string)

  /** Outcome of a library call that the Go server checks immediately. */
  datatype Result<T> = Ok(value: T) | Err(error: Error)

  /** Go's `(T, error)` pair: `err == None` is a nil error. The value is
      returned (and may be used by the caller) whether or not `err` is set. */
  datatype Ret<T> = Ret(value: T, err: Option<Error>)

  /** A call that either returns normally or panics (an out-of-range index). */
  datatype Exec<T> = Done(value: T) | Panicked

  /** One entry of `properties.periods` in the forecast document. */
  datatype Period = Period(temperature: int64, summary: string)

  /** The decoded forecast document (`ForecastResponse`). */
  datatype ForecastResponse = ForecastResponse(periods: seq<Period>)

  /** The decoded points document (`EndpointUrlResponse`); only
      `properties.forecast` is ever read. */
  datatype EndpointUrlResponse = EndpointUrlResponse(forecast: string)

  /** The payload sent back to the client. */
  datatype ForecastData = ForecastData(temperature: string, summary: string)

  /** Go's zero value `ForecastData{}`. */
  const ZeroForecastData := ForecastData("", "")
}
