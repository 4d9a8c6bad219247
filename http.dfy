/** What the dashboard sees of the network. A request is a URL; the response
    is its status, its `content-type` header, its body text and what
    `JSON.parse` makes of that text. `fetch` itself is an oracle: a function
    from request to outcome, given as a parameter wherever the source calls it.
    A rejected promise carries the error's `name` and `message`: an aborted
    request rejects with name "AbortError". */
module Http {
  import opened Wrappers
  import opened JsStrings
  import opened JsValues

  /** A URL as `URL`/`URLSearchParams` hold it: everything before the query,
      and the query as ordered name/value pairs. */
  datatype Url = Url(location: string, query: seq<(string, string)>)

  /** The URL text: the location, then "?" and the query when there is one.
      Percent-encoding of the query is not modelled. */
  function UrlText(u: Url): (r: string)
    ensures u.query == [] ==> r == u.location
    ensures |u.location| <= |r| && r[..|u.location|] == u.location
    ensures u.query != [] ==> |r| > |u.location| && r[|u.location|] == '?'
  {
    if u.query == [] then u.location
    else u.location + "?" + Join(seq(|u.query|, i requires 0 <= i < |u.query| =>
      u.query[i].0 + "=" + u.query[i].1), "&")
  }

  datatype Request = Request(url: Url, headers: map<string, string>)

  datatype Parse = Parsed(value: Json) | Unparseable(message: string)

  datatype Response = Response(status: int, contentType: Option<string>, text: string, body: Parse)

  /** `res.ok`. */
  predicate Ok(r: Response) {
    200 <= r.status <= 299
  }

  /** `res.headers.get("content-type") || ""`. */
  function ContentType(r: Response): string {
    r.contentType.GetOr("")
  }

  datatype Net = Delivered(response: Response) | Rejected(name: string, message: string)

  /** A settled call: a value, or the error it throws. */
  datatype Outcome<T> = Done(value: T) | Threw(name: string, message: string) {
    predicate IsAbort() {
      Threw? && name == "AbortError"
    }
  }

  /** What an aborted `fetch` rejects with. */
  const AbortedNet: Net := Rejected("AbortError", "signal is aborted without reason")

  /** The oracle a request sees once its controller has been aborted. */
  function AbortedFetch(): (Request -> Net) {
    _ => AbortedNet
  }
}
