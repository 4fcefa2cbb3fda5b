/** The values the worker exchanges with the host: requests, responses and
    the outcome of a network fetch, which the host network stack decides. */
module Http {

  datatype Option<T> = None | Some(value: T)

  /** A response as far as the worker looks at it: its status and its body.
      Responses are immutable values here, so a clone is the same value. */
  datatype Response = Response(status: int, body: string)

  /** `response.ok`: the status is in the range 200-299. */
  predicate Ok(r: Response)
  {
    200 <= r.status <= 299
  }

  /** What the Cache API lets into a cache: `Cache.put` refuses a partial
      (206) response, and `Cache.addAll` refuses it and every response that
      is not ok. */
  predicate Storable(r: Response)
  {
    Ok(r) && r.status != 206
  }

  /** The outcome of `fetch`: the promise rejects (a network error) or it
      resolves to a response, whatever its status. */
  datatype NetOutcome = NetError | NetResponse(resp: Response)

  /** An intercepted request. `url` is the absolute URL as text; `origin` and
      `hostname` are what `new URL(url)` would give; `accept` is the value of
      the `accept` header, if present; `mode` is `request.mode`; `verb` is `request.method`. */
  datatype Request = Request(
    verb: string,
    url: string,
    accept: Option<string>,
    mode: string,
    origin: string,
    hostname: string)
}
