/** The network side of src/pages/ReportPage.tsx: how `fetchJSON` turns a
    response into a value or an error, the query of the daily request, and
    the page loop of `fetchRepairAllPages`. */
module ReportFetch {
  import opened Wrappers
  import opened JsStrings
  import opened JsValues
  import opened Http
  import opened ReportShaping

  /** `DEFAULT_PAGE_SIZE`. */
  const PageSize := 5000
  /** The safety cap on the number of pages. */
  const PageCap := 2000
  /** How much of a body an error message quotes. */
  const PreviewLength := 300

  /** `\w` without the `u` flag. */
  predicate WordChar(c: char) {
    'A' <= c <= 'Z' || 'a' <= c <= 'z' || '0' <= c <= '9' || c == '_'
  }

  /** The word "json", in any letter case, at position i of s. */
  predicate JsonWordAt(s: string, i: int) {
    0 <= i && i + 4 <= |s| && ToLower(s[i..i + 4]) == "json"
    && (i == 0 || !WordChar(s[i - 1]))
    && (i + 4 == |s| || !WordChar(s[i + 4]))
  }

  /** `/\bjson\b/i.test(s)`. */
  predicate MentionsJson(s: string) {
    exists i :: 0 <= i < |s| && JsonWordAt(s, i)
  }

  function HttpError(status: int, url: string, text: string): string {
    "HTTP " + IntToString(status) + " @ " + url + "\n" + Take(text, PreviewLength)
  }

  function ParseError(url: string, text: string): string {
    "JSON parse error from " + url + "\nPreview: " + Take(text, PreviewLength)
  }

  function NotJsonError(url: string, contentType: string, text: string): string {
    "Not JSON from " + url + "\nContent-Type: " + contentType + "\nPreview: " + Take(text, PreviewLength)
  }

  /** `fetchJSON(url)` once `fetch` has settled with `net`. A failed status
      always reports the raw body: the message built from the parsed body is
      thrown inside a `try` whose bare `catch` replaces it. */
  function FetchJson(url: string, net: Net): (r: Outcome<Json>)
    ensures r.Done? <==> net.Delivered? && Ok(net.response) && net.response.body.Parsed?
    ensures r.Done? ==> r.value == net.response.body.value
    ensures net.Rejected? ==> r == Threw(net.name, net.message)
    ensures net.Delivered? && r.Threw? ==> r.name == "Error"
    ensures net.Delivered? && !Ok(net.response) ==>
      r.message == HttpError(net.response.status, url, net.response.text)
    ensures net.Delivered? && Ok(net.response) && net.response.body.Unparseable? ==>
      r.message == (if MentionsJson(ContentType(net.response))
                    then ParseError(url, net.response.text)
                    else NotJsonError(url, ContentType(net.response), net.response.text))
  {
    match net
    case Rejected(name, message) => Threw(name, message)
    case Delivered(res) =>
      if !Ok(res) then Threw("Error", HttpError(res.status, url, res.text))
      else match res.body
        case Parsed(j) => Done(j)
        case Unparseable(_) =>
          var ct := ContentType(res);
          if MentionsJson(ct) then Threw("Error", ParseError(url, res.text))
          else Threw("Error", NotJsonError(url, ct, res.text))
  }

  /** Whether the body of a failed response parses, and to what, makes no
      difference to the error. */
  lemma FailedStatusIgnoresBody(url: string, res: Response, other: Parse)
    requires !Ok(res)
    ensures FetchJson(url, Delivered(res)) == FetchJson(url, Delivered(res.(body := other)))
  {
  }

  /** Only a rejected `fetch` named "AbortError" gives an abort; every error
      `fetchJSON` makes itself is a plain `Error`. */
  lemma FetchJsonAbort(url: string, net: Net)
    ensures FetchJson(url, net).IsAbort() <==> net.Rejected? && net.name == "AbortError"
    ensures FetchJson(url, AbortedNet).IsAbort()
  {
  }

  /** The two messages for an unparseable body are told apart by their first
      word, which says whether the content type claimed JSON. */
  lemma UnparseableKind(url: string, res: Response)
    requires Ok(res) && res.body.Unparseable?
    ensures StartsWith(FetchJson(url, Delivered(res)).message, "JSON parse error")
      <==> MentionsJson(ContentType(res))
  {
    var m := FetchJson(url, Delivered(res)).message;
    if !MentionsJson(ContentType(res)) {
      assert m[0] == 'N';
    }
  }

  /** The word test: a JSON media type with parameters matches; "jsonp" and
      an HTML type do not. */
  lemma MentionsJsonExamples()
    ensures MentionsJson("application/json; charset=utf-8")
    ensures !MentionsJson("application/jsonp")
    ensures !MentionsJson("text/html")
  {
    JsonWordInCharset();
    NoJsonWordInJsonp();
    NoJsonWordInHtml();
  }

  lemma JsonWordInCharset()
    ensures JsonWordAt("application/json; charset=utf-8", 12)
  {
    var ct := "application/json; charset=utf-8";
    assert ct[12..16] == "json";
    assert ToLower("json") == "json";
  }

  lemma NoJsonWordInJsonp()
    ensures forall i :: 0 <= i < |"application/jsonp"| ==> !JsonWordAt("application/jsonp", i)
  {
    var jp := "application/jsonp";
    forall i | 0 <= i < |jp|
      ensures !JsonWordAt(jp, i)
    {
      if i + 4 <= |jp| && ToLower(jp[i..i + 4]) == "json" {
        assert LowerChar(jp[i]) == 'j';
        assert i == 12;
        assert WordChar(jp[16]);
      }
    }
  }

  lemma NoJsonWordInHtml()
    ensures forall i :: 0 <= i < |"text/html"| ==> !JsonWordAt("text/html", i)
  {
    forall i | 0 <= i < |"text/html"|
      ensures !JsonWordAt("text/html", i)
    {
      if 0 <= i && i + 4 <= 9 {
        assert LowerChar("text/html"[i]) != 'j';
      }
    }
  }

  /** `JSON.stringify({ repair: v })`. */
  function RepairParam(v: Json): string {
    Stringify(JObj([("repair", v)]))
  }

  /** The query of one page: the parameters every page shares, then the page
      number. */
  function PageUrl(base: string, from: Option<string>, to: Option<string>, page: nat): (u: Url)
    ensures u.location == base
    ensures |u.query| > 0 && u.query[|u.query| - 1] == ("page", RepairParam(JNum(page)))
    ensures u.query[..|u.query| - 1] == RangeQuery(from, to)
  {
    var q := RangeQuery(from, to) + [("page", RepairParam(JNum(page)))];
    assert q[..|q| - 1] == RangeQuery(from, to);
    Url(base, q)
  }

  /** The parameters every page shares: from and to only when they are
      non-empty. */
  function RangeQuery(from: Option<string>, to: Option<string>): seq<(string, string)> {
    [("tables", "repair"), ("pageSize", IntToString(PageSize))]
    + (if Truthy(OptStr(from)) then [("from", from.value)] else [])
    + (if Truthy(OptStr(to)) then [("to", to.value)] else [])
    + [("orderBy", RepairParam(JStr("r_id"))), ("order", RepairParam(JStr("desc")))]
  }

  /** An optional string as a JavaScript value. */
  function OptStr(s: Option<string>): Option<Json> {
    match s
    case None => None
    case Some(t) => Str(t)
  }

  /** The query of the daily request: all three tables of one day. */
  function DailyUrl(base: string, day: string): (u: Url)
    ensures u.location == base
    ensures ("from", day) in u.query && ("to", day) in u.query
  {
    Url(base,
      [("tables", "repair,used_parts,other_cost"),
       ("pageSize", IntToString(PageSize)),
       ("from", day), ("to", day),
       ("order", Stringify(JObj([("repair", JStr("desc")), ("used_parts", JStr("desc")),
                                 ("other_cost", JStr("desc"))])))])
  }

  function Get(u: Url): Request {
    Request(u, map[])
  }

  /** The rows of one page: `coerceRows(json.tables.repair.rows)`. */
  function PageRows(json: Json): seq<Json> {
    CoerceRows(Field(Field(Field(Some(json), "tables"), "repair"), "rows"))
  }

  /** The page count a response reports: `Number(meta.totalPages || 1)`,
      taken when it is at least 1, else 1. */
  function TotalPages(json: Json): (n: int)
    ensures n >= 1
  {
    var box := Field(Field(Some(json), "tables"), "repair");
    var meta := OrElse(Field(box, "meta"), Some(JObj([])));
    match NumberOf(OrElse(Field(meta, "totalPages"), Number(1)))
    case Int(n) => if n >= 1 then n else 1
    case NaN => 1
  }

  /** The reported count is taken as it is when it is a positive integer,
      and is 1 when it is missing, null or not positive, whatever else the
      response holds. */
  lemma TotalPagesReported(json: Json, n: int)
    ensures Field(Field(Field(Field(Some(json), "tables"), "repair"), "meta"), "totalPages") == Some(JNum(n)) ==>
      TotalPages(json) == if n >= 1 then n else 1
    ensures Nullish(Field(Field(Field(Field(Some(json), "tables"), "repair"), "meta"), "totalPages")) ==>
      TotalPages(json) == 1
  {
  }

  /** What the loop reads from one response: its rows and its page count. */
  datatype Page = Page(rows: seq<Json>, totalPages: int)

  /** The pages the loop's requests give, by page number. */
  type Pager = nat -> Outcome<Page>

  function ReadPage(json: Json): Page {
    Page(PageRows(json), TotalPages(json))
  }

  /** What `fetchJSON` gives for each page's request, with rows and count
      read off the value. */
  function PageFetch(base: string, from: Option<string>, to: Option<string>,
                     fetch: Request -> Net): Pager {
    (p: nat) =>
      match FetchJson(UrlText(PageUrl(base, from, to, p)), fetch(Get(PageUrl(base, from, to, p))))
      case Done(json) => Done(ReadPage(json))
      case Threw(n, m) => Threw(n, m)
  }

  /** Whether the loop goes on after page p with count tp. */
  predicate Continues(p: nat, tp: int) {
    p + 1 <= tp && p + 1 <= PageCap
  }

  /** The outcome of the loop from page p on: each page's rows followed by
      those of the later pages, or the first error. */
  function PagesFrom(pager: Pager, p: nat): (r: Outcome<seq<Json>>)
    requires 1 <= p <= PageCap
    ensures pager(p).Threw? ==> r == Threw(pager(p).name, pager(p).message)
    ensures r.Done? ==> pager(p).Done? && pager(p).value.rows <= r.value
    ensures r.Threw? ==> exists q :: p <= q <= PageCap && pager(q) == Threw(r.name, r.message)
    decreases PageCap - p
  {
    match pager(p)
    case Threw(n, m) => Threw(n, m)
    case Done(page) =>
      if Continues(p, page.totalPages) then Prefixed(page.rows, PagesFrom(pager, p + 1))
      else Done(page.rows)
  }

  /** The pages the loop requests from page p on. */
  function Requested(pager: Pager, p: nat): seq<nat>
    requires 1 <= p <= PageCap
    decreases PageCap - p
  {
    match pager(p)
    case Threw(_, _) => [p]
    case Done(page) =>
      if Continues(p, page.totalPages) then [p] + Requested(pager, p + 1)
      else [p]
  }

  /** The rows of the given pages, concatenated in their order. */
  function RowsOf(pager: Pager, pages: seq<nat>): seq<Json> {
    if pages == [] then []
    else
      var o := pager(pages[0]);
      (if o.Done? then o.value.rows else []) + RowsOf(pager, pages[1..])
  }

  /** The loop requests pages p, p+1, ... in order, never beyond the cap. */
  lemma {:induction false} RequestedInOrder(pager: Pager, p: nat)
    requires 1 <= p <= PageCap
    ensures var r := Requested(pager, p);
      && 1 <= |r| <= PageCap - p + 1
      && forall i :: 0 <= i < |r| ==> r[i] == p + i
    decreases PageCap - p
  {
    var o := pager(p);
    if o.Done? && Continues(p, o.value.totalPages) {
      RequestedInOrder(pager, p + 1);
    }
  }

  /** A successful loop returns the rows of every page it requested, in page
      order; a failed one fails with the error of its last request. */
  lemma {:induction false} PagesFromRows(pager: Pager, p: nat)
    requires 1 <= p <= PageCap
    ensures var r := PagesFrom(pager, p);
      var pages := Requested(pager, p);
      && (r.Done? ==> r.value == RowsOf(pager, pages))
      && (r.Done? <==> pager(pages[|pages| - 1]).Done?)
      && (r.Threw? ==> r.name == pager(pages[|pages| - 1]).name
                       && r.message == pager(pages[|pages| - 1]).message)
    decreases PageCap - p
  {
    var o := pager(p);
    var pages := Requested(pager, p);
    if o.Done? && Continues(p, o.value.totalPages) {
      PagesFromRows(pager, p + 1);
      var rest := Requested(pager, p + 1);
      assert pages == [p] + rest;
      assert pages[1..] == rest;
      assert pages[|pages| - 1] == rest[|rest| - 1];
    } else {
      assert pages == [p];
      assert pages[1..] == [];
    }
  }

  /** `fetchRepairAllPages`: requests pages 1, 2, ... while the last response
      reports more pages and the cap is not reached, and concatenates their
      rows. It returns the outcome and the pages it requested. */
  method FetchRepairAllPages(base: string, from: Option<string>, to: Option<string>,
                             fetch: Request -> Net)
    returns (r: Outcome<seq<Json>>, requested: seq<nat>)
    ensures r == PagesFrom(PageFetch(base, from, to, fetch), 1)
    ensures requested == Requested(PageFetch(base, from, to, fetch), 1)
  {
    r, requested := FetchPages(PageFetch(base, from, to, fetch));
  }

  /** The loop of `fetchRepairAllPages`, where `pager(n)` is what
      `fetchJSON` gives for the URL of page n. */
  method FetchPages(pager: Pager) returns (r: Outcome<seq<Json>>, requested: seq<nat>)
    ensures r == PagesFrom(pager, 1)
    ensures requested == Requested(pager, 1)
  {
    ghost var whole, pages := PagesFrom(pager, 1), Requested(pager, 1);
    var all: seq<Json> := [];
    var page := 1;
    var totalPages := 1;
    requested := [];
    PrefixedEmpty(whole);
    while page <= totalPages
      invariant Progress(pager, page, totalPages, all, requested, whole, pages)
      decreases PageCap - page
    {
      var out := pager(page);
      if out.Threw? {
        ProgressThrew(pager, page, totalPages, all, requested, whole, pages);
        return Threw(out.name, out.message), requested + [page];
      }
      ProgressStep(pager, page, totalPages, all, requested, whole, pages);
      all := all + out.value.rows;
      requested := requested + [page];
      totalPages := out.value.totalPages;
      page := page + 1;
      if page > PageCap {
        break;
      }
    }
    r := Done(all);
  }

  /** What the loop has done before it requests page p: the rows gathered so
      far followed by those of the pages still to come give the whole
      outcome, or, once the count is passed, the rows gathered are all. */
  ghost predicate Progress(pager: Pager, p: nat, totalPages: int, all: seq<Json>, requested: seq<nat>,
                           whole: Outcome<seq<Json>>, pages: seq<nat>) {
    && 1 <= p <= PageCap
    && (p <= totalPages ==>
        && whole == Prefixed(all, PagesFrom(pager, p))
        && pages == requested + Requested(pager, p))
    && (p > totalPages ==>
        && whole == Done(all)
        && pages == requested)
  }

  lemma ProgressThrew(pager: Pager, p: nat, totalPages: int, all: seq<Json>, requested: seq<nat>,
                      whole: Outcome<seq<Json>>, pages: seq<nat>)
    requires p <= totalPages && Progress(pager, p, totalPages, all, requested, whole, pages)
    requires pager(p).Threw?
    ensures whole == Threw(pager(p).name, pager(p).message)
    ensures pages == requested + [p]
  {
    PagesFromStep(pager, p);
  }

  lemma ProgressStep(pager: Pager, p: nat, totalPages: int, all: seq<Json>, requested: seq<nat>,
                     whole: Outcome<seq<Json>>, pages: seq<nat>)
    requires p <= totalPages && Progress(pager, p, totalPages, all, requested, whole, pages)
    requires pager(p).Done?
    ensures p + 1 <= PageCap ==>
      Progress(pager, p + 1, pager(p).value.totalPages, all + pager(p).value.rows, requested + [p], whole, pages)
    ensures p + 1 > PageCap ==>
      whole == Done(all + pager(p).value.rows) && pages == requested + [p]
  {
    var rows := pager(p).value.rows;
    PagesFromStep(pager, p);
    if Continues(p, pager(p).value.totalPages) {
      PrefixedAppend(all, rows, PagesFrom(pager, p + 1));
      assert requested + ([p] + Requested(pager, p + 1)) == (requested + [p]) + Requested(pager, p + 1);
    }
  }

  /** One step of the loop, read off its definition. */
  lemma PagesFromStep(pager: Pager, p: nat)
    requires 1 <= p <= PageCap
    ensures pager(p).Threw? ==>
      PagesFrom(pager, p) == Threw(pager(p).name, pager(p).message) && Requested(pager, p) == [p]
    ensures pager(p).Done? && Continues(p, pager(p).value.totalPages) ==>
      && PagesFrom(pager, p) == Prefixed(pager(p).value.rows, PagesFrom(pager, p + 1))
      && Requested(pager, p) == [p] + Requested(pager, p + 1)
    ensures pager(p).Done? && !Continues(p, pager(p).value.totalPages) ==>
      PagesFrom(pager, p) == Done(pager(p).value.rows) && Requested(pager, p) == [p]
  {
  }

  lemma PrefixedEmpty(o: Outcome<seq<Json>>)
    ensures Prefixed([], o) == o
  {
    if o.Done? {
      assert [] + o.value == o.value;
    }
  }

  /** `all` followed by the outcome of the remaining pages. */
  function Prefixed(all: seq<Json>, o: Outcome<seq<Json>>): Outcome<seq<Json>> {
    match o
    case Threw(n, m) => Threw(n, m)
    case Done(rest) => Done(all + rest)
  }

  lemma PrefixedAppend(a: seq<Json>, b: seq<Json>, o: Outcome<seq<Json>>)
    ensures Prefixed(a, Prefixed(b, o)) == Prefixed(a + b, o)
  {
    if o.Done? {
      assert a + (b + o.value) == (a + b) + o.value;
    }
  }
}
