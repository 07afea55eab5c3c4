/** The rates web service, seen from the client: the request it sends for
    one source currency and the parsed reply it gets back. The network and
    the JSON decoder are not modelled; a query receives the service as a
    function from request to reply. */
module Transport {
  import opened Values

  /** An exchange rate. The client copies rates from the reply into its
      table and never computes with them. */
  type Rate(==)

  /** A JSON object whose values are rates, keys in document order. */
  type RateObject = seq<(string, Rate)>

  /** The body of a `/latest` or `/{date}` reply:
      `{base, date, rates: {TARGET: rate, ...}}`. */
  datatype DayBody = DayBody(base: string, date: string, rates: RateObject)

  /** The body of a `/history` reply:
      `{base, rates: {DATE: {TARGET: rate, ...}, ...}}`. */
  datatype RangeBody = RangeBody(base: string, rates: seq<(string, RateObject)>)

  /** The three endpoints below the service's base URL. */
  datatype Endpoint =
    | Latest
    | OnDate(date: string)
    | History(startAt: string, endAt: string)

  /** One GET: the endpoint plus the `base` and `symbols` query parameters;
      `symbols` is the client's stored target currency, whatever it is. */
  datatype Request = Request(endpoint: Endpoint, base: string, symbols: Value)

  /** The statuses `raise_for_status` raises for: client errors 4xx and
      server errors 5xx. */
  type ErrorCode = c: int | 400 <= c < 600 witness 400

  /** A parsed success body, or a response whose status is an HTTP error. */
  datatype Reply<B> = Received(body: B) | ErrorStatus(code: ErrorCode)

  /** The requests a query sends, one per source currency, in order. */
  function RequestsFor(endpoint: Endpoint, sources: seq<string>, symbols: Value): seq<Request>
  {
    seq(|sources|, i requires 0 <= i < |sources| => Request(endpoint, sources[i], symbols))
  }
}
