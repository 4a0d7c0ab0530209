/**
 * What the three core files share: the errors that travel back through
 * Go's `error` results, parsed URLs, the shape of a generated-client
 * response, and the way a Go function ends (a returned error or a panic).
 */
module Http {
  import opened Wrappers

  /** An `error` value. Its text comes from code that is not part of this model. */
  datatype Error =
    | Upstream(message: string)   // returned by the transport or the generated client
    | ParseUrl(rawUrl: string)    // returned by `url.Parse` for a cursor it rejects

  /** A `MoneyObject` of the API: an ISO currency code and an amount in the currency's smallest unit. */
  datatype Money = Money(currencyCode: string, valueInBaseUnits: int)

  /** The parts of a `*url.URL` the core reads; only `Path` is used for labels. */
  datatype Url = Url(scheme: string, host: string, path: string, rawQuery: string)

  /**
   * The outcome of a call into the generated client (`GetAccountsWithResponse`
   * and friends): an error, or a response whose `JSON200` field is set only
   * when the upstream answered 200 with a JSON body (nil otherwise).
   */
  datatype FetchResult<T> = FetchErr(err: Error) | Fetched(json200: Option<T>)

  /** How a Go function that returns `error` ends: by returning, or by a run-time panic. */
  datatype Return = Returned(err: Option<Error>) | Panicked
}
