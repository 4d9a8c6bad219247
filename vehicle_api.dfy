/** src/lib/vehicleApi.ts: building a request URL from a path and a record of
    parameters, and `safeFetch`, which sends it with an optional token header
    and checks the response before parsing it. */
module VehicleApiClient {
  import opened Wrappers
  import opened JsStrings
  import opened JsValues
  import opened Http

  /** `path.replace(/^\/+/, "")`: the path without its leading slashes. */
  function StripLeadingSlashes(path: string): (r: string)
    ensures |r| <= |path| && r == path[|path| - |r|..]
    ensures r == [] || r[0] != '/'
    ensures forall k :: 0 <= k < |path| - |r| ==> path[k] == '/'
  {
    if path != [] && path[0] == '/' then StripLeadingSlashes(path[1..]) else path
  }

  /** The text a parameter value is set to: `JSON.stringify(v)` for objects
      and arrays, `String(v)` for the rest. */
  function ParamText(v: Json): (r: string)
    ensures v.JArr? || v.JObj? ==> r == Stringify(v)
    ensures !(v.JArr? || v.JObj?) ==> r == ToStr(v)
  {
    if v.JArr? || v.JObj? then Stringify(v) else ToStr(v)
  }

  /** `URLSearchParams.get(k)`: the value of the first pair named k. */
  function Get(query: seq<(string, string)>, k: string): (r: Option<string>)
    ensures r.None? <==> forall i :: 0 <= i < |query| ==> query[i].0 != k
  {
    if query == [] then None
    else if query[0].0 == k then Some(query[0].1)
    else
      var r := Get(query[1..], k);
      assert forall i :: 0 < i < |query| ==> query[i] == query[1..][i - 1];
      r
  }

  /** The pairs not named k. */
  function Without(query: seq<(string, string)>, k: string): (r: seq<(string, string)>)
    ensures Get(r, k) == None
    ensures forall j :: j != k ==> Get(r, j) == Get(query, j)
  {
    if query == [] then []
    else if query[0].0 == k then Without(query[1..], k)
    else [query[0]] + Without(query[1..], k)
  }

  /** `URLSearchParams.set(k, v)`: the first pair named k takes the value v
      and the other pairs named k go; with no such pair, (k, v) is appended. */
  function Set(query: seq<(string, string)>, k: string, v: string): (r: seq<(string, string)>)
    ensures Get(r, k) == Some(v)
    ensures forall j :: j != k ==> Get(r, j) == Get(query, j)
  {
    if query == [] then [(k, v)]
    else if query[0].0 == k then [(k, v)] + Without(query[1..], k)
    else [query[0]] + Set(query[1..], k, v)
  }

  /** The query the loop over `Object.entries(params)` builds: entries whose
      value is undefined (None) or null are skipped. */
  function Query(params: seq<(string, Option<Json>)>): seq<(string, string)>
  {
    if params == [] then []
    else
      var q := Query(params[..|params| - 1]);
      var (k, v) := params[|params| - 1];
      if Nullish(v) then q else Set(q, k, ParamText(v.value))
  }

  /** The value of the last entry named k that is neither undefined nor null. */
  function LastGiven(params: seq<(string, Option<Json>)>, k: string): (r: Option<Json>)
    ensures r.Some? ==> exists i :: 0 <= i < |params| && params[i] == (k, Some(r.value)) && r.value != JNull
    ensures r.None? ==> forall i :: 0 <= i < |params| && params[i].0 == k ==> Nullish(params[i].1)
  {
    if params == [] then None
    else if params[|params| - 1].0 == k && !Nullish(params[|params| - 1].1) then params[|params| - 1].1
    else LastGiven(params[..|params| - 1], k)
  }

  /** Each parameter of the URL holds the text of the last value given for
      it; a name only ever given undefined or null is absent. */
  lemma {:induction false} QueryGet(params: seq<(string, Option<Json>)>, k: string)
    ensures LastGiven(params, k).None? ==> Get(Query(params), k) == None
    ensures LastGiven(params, k).Some? ==> Get(Query(params), k) == Some(ParamText(LastGiven(params, k).value))
    decreases |params|
  {
    if params != [] {
      QueryGet(params[..|params| - 1], k);
    }
  }

  /** `buildURL(path, params)` before the query: the base, one slash, and the
      path without its leading slashes. */
  function Location(base: string, path: string): (r: string)
    ensures r == base + "/" + StripLeadingSlashes(path)
  {
    base + "/" + StripLeadingSlashes(path)
  }

  /** The URL `buildURL` denotes. */
  function BuiltUrl(base: string, path: string, params: Option<seq<(string, Option<Json>)>>): (r: Url)
    ensures r.location == Location(base, path)
    ensures params.None? ==> r.query == []
    ensures params.Some? ==> r.query == Query(params.value)
  {
    Url(Location(base, path), if params.Some? then Query(params.value) else [])
  }

  /** A path's leading slashes make no difference. */
  lemma LeadingSlashesIgnored(base: string, path: string)
    ensures Location(base, "/" + path) == Location(base, path)
  {
    assert ("/" + path)[1..] == path;
  }

  /** One more entry: its value is set on the query unless it is undefined or null. */
  lemma QueryStep(entries: seq<(string, Option<Json>)>, i: nat)
    requires i < |entries|
    ensures Query(entries[..i + 1]) ==
      if Nullish(entries[i].1) then Query(entries[..i])
      else Set(Query(entries[..i]), entries[i].0, ParamText(entries[i].1.value))
  {
    assert entries[..i + 1][..i] == entries[..i];
  }

  /** `buildURL(path, params)`: the URL is made, then each entry of params
      that is neither undefined nor null is set on its search parameters. */
  method BuildUrl(base: string, path: string, params: Option<seq<(string, Option<Json>)>>) returns (url: Url)
    ensures url == BuiltUrl(base, path, params)
  {
    var query: seq<(string, string)> := [];
    if params.Some? {
      var entries := params.value;
      for i := 0 to |entries|
        invariant query == Query(entries[..i])
      {
        QueryStep(entries, i);
        var (k, v) := entries[i];
        if !Nullish(v) {
          query := Set(query, k, ParamText(v.value));
        }
      }
      assert entries[..|entries|] == entries;
    }
    url := Url(Location(base, path), query);
  }

  /** The headers `safeFetch` sends: X-Token when a token is configured. */
  method Headers(token: Option<string>) returns (headers: map<string, string>)
    ensures token.Some? && token.value != "" ==> headers == map["X-Token" := token.value]
    ensures !(token.Some? && token.value != "") ==> headers == map[]
  {
    headers := map[];
    if token.Some? && token.value != "" {
      headers := headers["X-Token" := token.value];
    }
  }

  /** The request `safeFetch` sends. */
  function SafeRequest(base: string, token: Option<string>, path: string,
                       params: Option<seq<(string, Option<Json>)>>): (r: Request)
    ensures r.url == BuiltUrl(base, path, params)
    ensures "X-Token" in r.headers <==> token.Some? && token.value != ""
    ensures "X-Token" in r.headers ==> r.headers["X-Token"] == token.value
    ensures r.headers.Keys <= {"X-Token"}
  {
    Request(BuiltUrl(base, path, params),
            if token.Some? && token.value != "" then map["X-Token" := token.value] else map[])
  }

  /** The checks on the response, in their order: the status, then the
      content type, then the parse. */
  function Checked(net: Net): (r: Outcome<Json>)
    ensures net.Rejected? ==> r == Threw(net.name, net.message)
    ensures net.Delivered? && !Ok(net.response) ==>
      r == Threw("Error", "HTTP " + IntToString(net.response.status) + "\n" + Take(net.response.text, 200))
    ensures net.Delivered? && Ok(net.response) && !Contains(ContentType(net.response), "application/json") ==>
      r == Threw("Error", "Not JSON: " + Take(net.response.text, 200))
    ensures r.Done? <==>
      (net.Delivered? && Ok(net.response) && Contains(ContentType(net.response), "application/json") && net.response.body.Parsed?)
    ensures r.Done? ==> r.value == net.response.body.value
  {
    match net
    case Rejected(name, message) => Threw(name, message)
    case Delivered(res) =>
      if !Ok(res) then Threw("Error", "HTTP " + IntToString(res.status) + "\n" + Take(res.text, 200))
      else if !Contains(ContentType(res), "application/json") then
        Threw("Error", "Not JSON: " + Take(res.text, 200))
      else match res.body
        case Parsed(v) => Done(v)
        case Unparseable(message) => Threw("SyntaxError", message)
  }

  /** `safeFetch(path, params)`: the headers are built, the request sent
      through fetch, and the response checked. */
  method SafeFetch(base: string, token: Option<string>, path: string,
                   params: Option<seq<(string, Option<Json>)>>, fetch: Request -> Net)
    returns (o: Outcome<Json>)
    ensures o == Checked(fetch(SafeRequest(base, token, path, params)))
  {
    var url := BuildUrl(base, path, params);
    var headers := Headers(token);
    var net := fetch(Request(url, headers));
    var res: Response;
    match net {
      case Rejected(name, message) =>
        return Threw(name, message);
      case Delivered(r) =>
        res := r;
    }
    if !Ok(res) {
      return Threw("Error", "HTTP " + IntToString(res.status) + "\n" + Take(res.text, 200));
    }
    if !Contains(ContentType(res), "application/json") {
      return Threw("Error", "Not JSON: " + Take(res.text, 200));
    }
    match res.body {
      case Parsed(v) =>
        o := Done(v);
      case Unparseable(message) =>
        o := Threw("SyntaxError", message);
    }
  }

  /** A failed status is reported whatever the content type and body. */
  lemma StatusFirst(res: Response, contentType: Option<string>, body: Parse)
    requires !Ok(res)
    ensures Checked(Delivered(res.(contentType := contentType, body := body))) == Checked(Delivered(res))
  {
  }

  /** A body that is not declared JSON is never parsed. */
  lemma ContentTypeBeforeParse(res: Response, body: Parse)
    requires Ok(res) && !Contains(ContentType(res), "application/json")
    ensures Checked(Delivered(res.(body := body))) == Checked(Delivered(res))
  {
  }
}
