/**
 * The instrumented outbound transport of up/promhttpclient.go: every call
 * through `PromHTTPClient.Do` holds the in-flight gauge for its duration and,
 * when a response arrives, is counted and observed under (path, code).
 */
module PromHttpClient {
  import opened Wrappers
  import opened Http
  import Metrics
  import Decimal

  /** An outgoing request; only `URL.Path` is read. */
  datatype Request = Request(url: Url)

  /** A response; only `StatusCode` and `ContentLength` are read. */
  datatype Response = Response(statusCode: int, contentLength: int)

  /**
   * What the wrapped `http.Client.Do` returned, with the time it took in
   * milliseconds (the clock is a parameter). Without an error there is always
   * a response; with one, the response may be anything, usually nil.
   */
  datatype Exchange =
    | Broken(partial: Option<Response>, err: Error)
    | Answered(response: Response, elapsedMs: int)

  /** The label pair (path, code) of the three labelled collectors. */
  datatype Labels = Labels(path: string, code: string)

  /** The labels a response to `req` is recorded under. */
  function LabelsFor(req: Request, resp: Response): (l: Labels)
    ensures l.path == req.url.path
    ensures Decimal.ParseInt(l.code) == resp.statusCode
  {
    Decimal.ParseFormatInt(resp.statusCode);
    Labels(req.url.path, Decimal.FormatInt(resp.statusCode))
  }

  /** Responses with different status codes are recorded under different series. */
  lemma DistinctCodesDistinctSeries(req: Request, a: Response, b: Response)
    requires a.statusCode != b.statusCode
    ensures LabelsFor(req, a) != LabelsFor(req, b)
  {
    if LabelsFor(req, a) == LabelsFor(req, b) {
      Decimal.FormatIntInjective(a.statusCode, b.statusCode);
    }
  }

  /** The collectors of up/promhttpclient.go; histograms keep the list of their observations. */
  class Collectors {
    var outgoingInflights: int
    var requestTotal: map<Labels, int>
    var requestLatency: map<Labels, seq<int>>
    var responseSize: map<Labels, seq<int>>

    constructor ()
      ensures outgoingInflights == 0
      ensures requestTotal == map[] && requestLatency == map[] && responseSize == map[]
    {
      outgoingInflights := 0;
      requestTotal, requestLatency, responseSize := map[], map[], map[];
    }
  }

  /** `PromHTTPClient`; the wrapped `*http.Client` is the exchange passed to `Do`. */
  class PromHttpClient {
    const metrics: Collectors

    constructor (metrics: Collectors)
      ensures this.metrics == metrics
    {
      this.metrics := metrics;
    }

    /**
     * `Do`: the wrapped call's response and error come back as they are; the
     * in-flight gauge ends where it began; only an answered call moves a
     * labelled series, by one count and one observation of each histogram,
     * all under the same (path, code).
     */
    method Do(req: Request, wrapped: Exchange) returns (resp: Option<Response>, err: Option<Error>)
      modifies metrics
      ensures wrapped.Broken? ==> resp == wrapped.partial && err == Some(wrapped.err)
      ensures wrapped.Answered? ==> resp == Some(wrapped.response) && err == None
      ensures metrics.outgoingInflights == old(metrics.outgoingInflights)
      ensures wrapped.Broken? ==>
        && metrics.requestTotal == old(metrics.requestTotal)
        && metrics.requestLatency == old(metrics.requestLatency)
        && metrics.responseSize == old(metrics.responseSize)
      ensures wrapped.Answered? ==>
        var l := LabelsFor(req, wrapped.response);
        && metrics.requestTotal == Metrics.Add(old(metrics.requestTotal), l, 1)
        && metrics.requestLatency == Metrics.Observe(old(metrics.requestLatency), l, wrapped.elapsedMs)
        && metrics.responseSize == Metrics.Observe(old(metrics.responseSize), l, wrapped.response.contentLength)
    {
      metrics.outgoingInflights := metrics.outgoingInflights + 1;
      match wrapped {
        case Broken(r, e) =>
          resp, err := r, Some(e);
        case Answered(r, elapsed) =>
          var labels := LabelsFor(req, r);
          metrics.requestTotal := Metrics.Add(metrics.requestTotal, labels, 1);
          metrics.requestLatency := Metrics.Observe(metrics.requestLatency, labels, elapsed);
          metrics.responseSize := Metrics.Observe(metrics.responseSize, labels, r.contentLength);
          resp, err := Some(r), None;
      }
      // the deferred `outgoingInflights.Dec()` runs on both paths
      metrics.outgoingInflights := metrics.outgoingInflights - 1;
    }
  }
}
