/** `loadByFilters` of src/pages/ReportPage.tsx: the page's loading state
    machine. A call runs in two steps: `Begin` is everything up to the first
    `await` (the missing-endpoint guard, duplicate suppression, showing a
    cached entry, aborting the previous request and starting a new one), and
    `Complete` is what happens once the request settles (showing and caching
    the rows, or clearing them and reporting the error, and always turning
    `loading` off). A request whose controller was aborted before it settles
    settles as an `AbortError`. */
module ReportLoader {
  import opened Wrappers
  import opened JsStrings
  import opened JsValues
  import opened Http
  import opened DateTime
  import opened FilterDrawer
  import opened ReportShaping
  import opened ReportFetch
  import opened ReportKey

  const NoEndpointError := "ไม่ได้ตั้งค่า VITE_EXPORT_ALL"
  const LoadFailedError := "โหลดข้อมูลล้มเหลว"
  const PendingAllLabel := "งานค้างทั้งหมด (กรองจากข้อมูลรวม)"
  const HistoryPrefix := "ประวัติแจ้งซ่อม • "

  /** What the page shows, and what the cache keeps per key. */
  datatype Entry = Entry(items: seq<Json>, parts: seq<Json>, exps: seq<Json>, rangeLabel: Option<string>)

  /** A started request: its controller and the filter it loads. */
  datatype Ticket = Ticket(ctl: nat, filters: Filters)

  /** A present, non-empty string: a truthy optional string. */
  predicate Given(v: Option<string>) {
    v.Some? && v.value != ""
  }

  /** `f.date || todayStr`. */
  function DailyDay(date: Option<string>, today: string): (d: string)
    ensures Given(date) ==> d == date.value
    ensures !Given(date) ==> d == today
  {
    if Given(date) then date.value else today
  }

  /** `from = f.from || f.to || todayStr` and `to = f.to || f.from || from`:
      a bound that is given is kept, and a single given bound is used for
      both ends. */
  function CustomRange(from: Option<string>, to: Option<string>, today: string): (r: (string, string))
    ensures Given(from) ==> r.0 == from.value
    ensures Given(to) ==> r.1 == to.value
    ensures !(Given(from) && Given(to)) ==> r.0 == r.1
    ensures !Given(from) && !Given(to) ==> r.0 == today
  {
    var f := if Given(from) then from.value else if Given(to) then to.value else today;
    var t := if Given(to) then to.value else if Given(from) then from.value else f;
    (f, t)
  }

  /** `new Date(`${s}T00:00:00`).toLocaleDateString("th-TH")`; an invalid
      date prints as "Invalid Date". */
  function DayText(s: string, newDate: DateParser, dayText: Date -> string): string {
    match newDate(s + "T00:00:00")
    case None => "Invalid Date"
    case Some(d) => dayText(d)
  }

  /** The label of a custom range: both days joined by an en dash. */
  function RangeLabel(from: string, to: string, newDate: DateParser, dayText: Date -> string): string {
    DayText(from, newDate, dayText) + " – " + DayText(to, newDate, dayText)
  }

  /** The label of a history load: the first given of plate, car name and
      chassis number, in that order of preference. */
  function HistoryLabel(carName: Option<string>, plate: Option<string>, vin: Option<string>): (r: string)
    ensures StartsWith(r, HistoryPrefix)
    ensures Given(plate) ==> r == HistoryPrefix + "ป้ายทะเบียน " + plate.value
    ensures !Given(plate) && Given(carName) ==> r == HistoryPrefix + "หมายเลขรถ " + carName.value
    ensures !Given(plate) && !Given(carName) && Given(vin) ==> r == HistoryPrefix + "เลขตัวถัง " + vin.value
    ensures !Given(plate) && !Given(carName) && !Given(vin) ==> r == HistoryPrefix + "รถคันที่เลือก"
  {
    var tail :=
      if Given(plate) then "ป้ายทะเบียน " + plate.value
      else if Given(carName) then "หมายเลขรถ " + carName.value
      else if Given(vin) then "เลขตัวถัง " + vin.value
      else "รถคันที่เลือก";
    assert (HistoryPrefix + tail)[..|HistoryPrefix|] == HistoryPrefix;
    HistoryPrefix + tail
  }

  /** The entry of a paged load: its rows, no parts or expenses, and a label. */
  function WithRows(o: Outcome<seq<Json>>, title: string): (r: Outcome<Entry>)
    ensures r.Done? <==> o.Done?
    ensures o.Done? ==> r.value == Entry(o.value, [], [], Some(title))
    ensures o.Threw? ==> r.name == o.name && r.message == o.message
  {
    match o
    case Done(rows) => Done(Entry(rows, [], [], Some(title)))
    case Threw(n, m) => Threw(n, m)
  }

  /** The entry of the daily load: the three tables of one response. */
  function DailyEntry(o: Outcome<Json>): (r: Outcome<Entry>)
    ensures r.Done? <==> o.Done?
    ensures o.Done? ==> r.value == Entry(GetTableRows(Some(o.value), "repair"),
      GetTableRows(Some(o.value), "used_parts"), GetTableRows(Some(o.value), "other_cost"), None)
    ensures o.Threw? ==> r.name == o.name && r.message == o.message
  {
    match o
    case Done(json) =>
      Done(Entry(GetTableRows(Some(json), "repair"), GetTableRows(Some(json), "used_parts"),
                 GetTableRows(Some(json), "other_cost"), None))
    case Threw(n, m) => Threw(n, m)
  }

  /** What the `try` block of a load settles with, for endpoint `api`, the
      day `today` and the network `fetch`: daily loads one request for the
      day; custom loads all pages of the range; history and pendingAll load
      all pages without a range. */
  function LoadOutcome(api: string, today: string, f: Filters, fetch: Request -> Net,
                       newDate: DateParser, dayText: Date -> string): (r: Outcome<Entry>)
    ensures r.Done? ==> (r.value.rangeLabel.Some? <==> !f.Daily?)
    ensures f.PendingAll? && r.Done? ==> r.value.rangeLabel == Some(PendingAllLabel)
  {
    match f
    case Daily(date) =>
      var u := DailyUrl(api, DailyDay(date, today));
      DailyEntry(FetchJson(UrlText(u), fetch(Get(u))))
    case Custom(from, to) =>
      var r := CustomRange(from, to, today);
      WithRows(PagesFrom(PageFetch(api, Some(r.0), Some(r.1), fetch), 1),
               RangeLabel(r.0, r.1, newDate, dayText))
    case History(carName, plate, vin) =>
      WithRows(PagesFrom(PageFetch(api, None, None, fetch), 1), HistoryLabel(carName, plate, vin))
    case PendingAll =>
      WithRows(PagesFrom(PageFetch(api, None, None, fetch), 1), PendingAllLabel)
  }

  /** Only the daily load brings parts and expenses; every other mode shows
      none and carries a label. */
  lemma NonDailyHasNoParts(api: string, today: string, f: Filters, fetch: Request -> Net,
                           newDate: DateParser, dayText: Date -> string)
    requires !f.Daily?
    ensures var o := LoadOutcome(api, today, f, fetch, newDate, dayText);
      o.Done? ==> o.value.parts == [] && o.value.exps == [] && o.value.rangeLabel.Some?
  {
  }

  /** Once the controller is aborted, every load settles as an AbortError:
      the first request already rejects. */
  lemma AbortedLoad(api: string, today: string, f: Filters, newDate: DateParser, dayText: Date -> string)
    ensures LoadOutcome(api, today, f, AbortedFetch(), newDate, dayText).IsAbort()
  {
    if f.Daily? {
      var u := DailyUrl(api, DailyDay(f.date, today));
      FetchJsonAbort(UrlText(u), AbortedNet);
    } else {
      var from, to := None, None;
      if f.Custom? {
        var r := CustomRange(f.from, f.to, today);
        from, to := Some(r.0), Some(r.1);
      }
      var pager := PageFetch(api, from, to, AbortedFetch());
      FetchJsonAbort(UrlText(PageUrl(api, from, to, 1)), AbortedNet);
      assert pager(1).IsAbort();
    }
  }

  /** The `try` block of a load: the same requests, with the page loop run
      by `FetchRepairAllPages`. */
  method RunLoad(api: string, today: string, f: Filters, fetch: Request -> Net,
                 newDate: DateParser, dayText: Date -> string) returns (o: Outcome<Entry>)
    ensures o == LoadOutcome(api, today, f, fetch, newDate, dayText)
  {
    match f
    case Daily(date) =>
      var u := DailyUrl(api, DailyDay(date, today));
      var json := FetchJson(UrlText(u), fetch(Get(u)));
      o := DailyEntry(json);
    case Custom(from, to) =>
      var r := CustomRange(from, to, today);
      var rows, _ := FetchRepairAllPages(api, Some(r.0), Some(r.1), fetch);
      o := WithRows(rows, RangeLabel(r.0, r.1, newDate, dayText));
    case History(carName, plate, vin) =>
      var rows, _ := FetchRepairAllPages(api, None, None, fetch);
      o := WithRows(rows, HistoryLabel(carName, plate, vin));
    case PendingAll =>
      var rows, _ := FetchRepairAllPages(api, None, None, fetch);
      o := WithRows(rows, PendingAllLabel);
  }

  /** The message a failed load shows: the error's, or a default when it has
      none. */
  function ErrorText(message: string): (r: string)
    ensures r != ""
    ensures message != "" ==> r == message
  {
    if message == "" then LoadFailedError else message
  }

  /** The state of the report page that loading touches. Controllers are
      numbered in the order they are created; `current` is the one in
      `reqCtlRef`. */
  class ReportPage {
    const api: string
    const today: string
    var items: seq<Json>
    var parts: seq<Json>
    var exps: seq<Json>
    var rangeLabel: Option<string>
    var loading: bool
    var err: Option<string>
    var filters: Filters
    var cache: map<string, Entry>
    var lastKey: string
    var current: Option<nat>
    var aborted: set<nat>
    var nextCtl: nat

    /** Every controller but the current one has been aborted. */
    ghost predicate Valid()
      reads this
    {
      Superseded(current, aborted, nextCtl)
    }

    function Shown(): Entry
      reads this
    {
      Entry(items, parts, exps, rangeLabel)
    }

    /** The page as it mounts: nothing shown, today's daily filter. */
    constructor(api: string, today: string)
      ensures this.api == api && this.today == today
      ensures Shown() == Entry([], [], [], None)
      ensures !loading && err == None && filters == Daily(Some(today))
      ensures cache == map[] && lastKey == "" && current == None && aborted == {} && nextCtl == 0
      ensures Valid()
    {
      this.api := api;
      this.today := today;
      items, parts, exps, rangeLabel := [], [], [], None;
      loading, err := false, None;
      filters := Daily(Some(today));
      cache, lastKey := map[], "";
      current, aborted, nextCtl := None, {}, 0;
    }

    /** Whether a call for f goes past the guards. */
    predicate Starts(f: Filters)
      reads this
    {
      api != "" && !(loading && KeyOf(f) == lastKey)
    }

    /** `loadByFilters(f, { useCache })` up to its first `await`. Without an
        endpoint only the error is set; a call for the key that is loading
        changes nothing; otherwise the error is cleared, loading starts, a
        cached entry for the key is shown at once, the current controller is
        aborted and a new one becomes current. */
    method Begin(f: Filters, useCache: bool) returns (t: Option<Ticket>)
      requires Valid()
      modifies this
      ensures Valid()
      ensures filters == old(filters) && cache == old(cache)
      ensures api == "" ==>
        && t == None && err == Some(NoEndpointError)
        && Shown() == old(Shown()) && loading == old(loading) && lastKey == old(lastKey)
        && current == old(current) && aborted == old(aborted) && nextCtl == old(nextCtl)
      ensures api != "" && !old(Starts(f)) ==> t == None && unchanged(this)
      ensures old(Starts(f)) ==>
        && t == Some(Ticket(old(nextCtl), f))
        && err == None && loading && lastKey == KeyOf(f)
        && current == Some(old(nextCtl)) && nextCtl == old(nextCtl) + 1
        && aborted == old(aborted) + (if old(current).Some? then {old(current).value} else {})
        && Shown() == (if useCache && KeyOf(f) in old(cache) then old(cache)[KeyOf(f)] else old(Shown()))
    {
      if api == "" {
        err := Some(NoEndpointError);
        return None;
      }
      var key := KeyOf(f);
      if loading && key == lastKey {
        return None;
      }
      var ctl := Start(key, useCache);
      t := Some(Ticket(ctl, f));
    }

    /** Past the guards: clear the error, start loading, show the cached
        entry, and replace the current controller by a new one. */
    method Start(key: string, useCache: bool) returns (ctl: nat)
      requires Valid()
      modifies this
      ensures Valid()
      ensures filters == old(filters) && cache == old(cache)
      ensures ctl == old(nextCtl) && current == Some(ctl) && nextCtl == ctl + 1
      ensures aborted == old(aborted) + (if old(current).Some? then {old(current).value} else {})
      ensures err == None && loading && lastKey == key
      ensures Shown() == (if useCache && key in old(cache) then old(cache)[key] else old(Shown()))
    {
      err, loading := None, true;
      if useCache && key in cache {
        Show(cache[key]);
      }
      ctl := Renew();
      lastKey := key;
    }

    method Show(e: Entry)
      modifies this`items, this`parts, this`exps, this`rangeLabel
      ensures Shown() == e
    {
      items, parts, exps, rangeLabel := e.items, e.parts, e.exps, e.rangeLabel;
    }

    /** `reqCtlRef.current?.abort()` and a new controller in its place. */
    method Renew() returns (ctl: nat)
      requires Valid()
      modifies this`current, this`aborted, this`nextCtl
      ensures Valid()
      ensures ctl == old(nextCtl) && current == Some(ctl) && nextCtl == ctl + 1
      ensures aborted == old(aborted) + (if old(current).Some? then {old(current).value} else {})
    {
      SupersededStart(current, aborted, nextCtl);
      aborted := aborted + (if current.Some? then {current.value} else {});
      ctl := nextCtl;
      current, nextCtl := Some(ctl), nextCtl + 1;
    }

    /** The network a request sees: an aborted controller's fetch rejects. */
    function NetOf(t: Ticket, fetch: Request -> Net): Request -> Net
      reads this
    {
      if t.ctl in aborted then AbortedFetch() else fetch
    }

    /** The rest of the call once its request settles. A result is shown and
        cached under the filter's key; an AbortError changes nothing; any
        other error clears the rows and shows its message. `loading` is off
        afterwards in every case. */
    method Complete(t: Ticket, fetch: Request -> Net, newDate: DateParser, dayText: Date -> string)
      requires Valid()
      modifies this
      ensures Valid()
      ensures !loading
      ensures filters == old(filters) && lastKey == old(lastKey) && current == old(current)
        && aborted == old(aborted) && nextCtl == old(nextCtl)
      ensures var o := LoadOutcome(api, today, t.filters, old(NetOf(t, fetch)), newDate, dayText);
        && (o.Done? ==> Shown() == o.value && cache == old(cache)[KeyOf(t.filters) := o.value] && err == old(err))
        && (o.IsAbort() ==> Shown() == old(Shown()) && cache == old(cache) && err == old(err))
        && (o.Threw? && !o.IsAbort() ==>
              Shown() == Entry([], [], [], old(rangeLabel)) && cache == old(cache)
              && err == Some(ErrorText(o.message)))
      ensures t.ctl in old(aborted) ==> Shown() == old(Shown()) && cache == old(cache) && err == old(err)
    {
      var o := RunLoad(api, today, t.filters, NetOf(t, fetch), newDate, dayText);
      if t.ctl in aborted {
        AbortedLoad(api, today, t.filters, newDate, dayText);
      }
      Settle(KeyOf(t.filters), o);
    }

    /** Show and cache a result under key, or clear the rows and show an
        error other than AbortError; then stop loading. */
    method Settle(key: string, o: Outcome<Entry>)
      requires Valid()
      modifies this
      ensures Valid()
      ensures !loading
      ensures filters == old(filters) && lastKey == old(lastKey) && current == old(current)
        && aborted == old(aborted) && nextCtl == old(nextCtl)
      ensures o.Done? ==> Shown() == o.value && cache == old(cache)[key := o.value] && err == old(err)
      ensures o.IsAbort() ==> Shown() == old(Shown()) && cache == old(cache) && err == old(err)
      ensures o.Threw? && !o.IsAbort() ==>
        && Shown() == Entry([], [], [], old(rangeLabel)) && cache == old(cache)
        && err == Some(ErrorText(o.message))
    {
      match o {
        case Done(e) =>
          Show(e);
          cache := cache[key := e];
        case Threw(name, message) =>
          if name != "AbortError" {
            items, parts, exps := [], [], [];
            err := Some(ErrorText(message));
          }
      }
      loading := false;
    }

    /** `handleFilterSubmit(f)`: clear the error, take f as the page's filter
        and load it. */
    method HandleFilterSubmit(f: Filters) returns (t: Option<Ticket>)
      requires Valid()
      modifies this
      ensures Valid()
      ensures filters == f && cache == old(cache)
      ensures api == "" ==>
        && t == None && err == Some(NoEndpointError)
        && Shown() == old(Shown()) && loading == old(loading) && lastKey == old(lastKey)
        && current == old(current) && aborted == old(aborted) && nextCtl == old(nextCtl)
      ensures api != "" && !old(Starts(f)) ==>
        && t == None && err == None
        && Shown() == old(Shown()) && loading == old(loading) && lastKey == old(lastKey)
        && current == old(current) && aborted == old(aborted) && nextCtl == old(nextCtl)
      ensures old(Starts(f)) ==>
        && t == Some(Ticket(old(nextCtl), f))
        && err == None && loading && lastKey == KeyOf(f)
        && current == Some(old(nextCtl)) && nextCtl == old(nextCtl) + 1
        && aborted == old(aborted) + (if old(current).Some? then {old(current).value} else {})
        && Shown() == (if KeyOf(f) in old(cache) then old(cache)[KeyOf(f)] else old(Shown()))
    {
      err := None;
      filters := f;
      t := Begin(f, true);
    }

    /** The mount effect: load today's daily report. */
    method Mount() returns (t: Option<Ticket>)
      requires Valid()
      modifies this
      ensures Valid()
      ensures filters == old(filters) && cache == old(cache)
      ensures api == "" ==>
        && t == None && err == Some(NoEndpointError)
        && Shown() == old(Shown()) && loading == old(loading) && lastKey == old(lastKey)
        && current == old(current) && aborted == old(aborted) && nextCtl == old(nextCtl)
      ensures api != "" && !old(Starts(Daily(Some(today)))) ==> t == None && unchanged(this)
      ensures var f := Daily(Some(today));
        old(Starts(f)) ==>
        && t == Some(Ticket(old(nextCtl), f))
        && err == None && loading && lastKey == KeyOf(f)
        && current == Some(old(nextCtl)) && nextCtl == old(nextCtl) + 1
        && aborted == old(aborted) + (if old(current).Some? then {old(current).value} else {})
        && Shown() == (if KeyOf(f) in old(cache) then old(cache)[KeyOf(f)] else old(Shown()))
    {
      t := Begin(Daily(Some(today)), true);
    }
  }

  /** Every controller below `next` other than the current one has been
      aborted, and the current one has not. */
  ghost predicate Superseded(current: Option<nat>, aborted: set<nat>, next: nat) {
    && (current.Some? ==> current.value < next && current.value !in aborted)
    && (forall c :: c in aborted ==> c < next)
    && (forall c: nat :: c < next && current != Some(c) ==> c in aborted)
  }

  /** Aborting the current controller and starting the next keeps every
      controller but the newest aborted. */
  lemma SupersededStart(current: Option<nat>, aborted: set<nat>, next: nat)
    requires Superseded(current, aborted, next)
    ensures Superseded(Some(next), aborted + (if current.Some? then {current.value} else {}), next + 1)
  {
  }

  /** Two loads started one after the other on a fresh page: the first one's
      controller is aborted, the second one's is current, and nothing is
      cached yet. */
  method Overlap(api: string, today: string, f: Filters, g: Filters) returns (page: ReportPage, first: Ticket, second: Ticket)
    requires api != "" && KeyOf(f) != KeyOf(g)
    ensures fresh(page) && page.Valid() && page.api == api && page.today == today
    ensures first.filters == f && second.filters == g
    ensures first.ctl in page.aborted && second.ctl !in page.aborted
    ensures page.cache == map[] && page.err == None
  {
    page := new ReportPage(api, today);
    var t1 := page.Begin(f, true);
    var t2 := page.Begin(g, true);
    first, second := t1.value, t2.value;
  }

  /** A superseded request: a second load started before the first settles
      aborts the first, so when the first settles the page still shows what
      it showed and caches nothing, whatever the first request would have
      returned; when the second settles, its result is shown and cached
      under its own key, and its error clears the rows. */
  method Supersede(api: string, today: string, f: Filters, g: Filters, fetch: Request -> Net,
                   newDate: DateParser, dayText: Date -> string)
    returns (shownBefore: Entry, shownAfter: Entry, cacheAfter: map<string, Entry>,
             shownFinal: Entry, cacheFinal: map<string, Entry>, errFinal: Option<string>,
             first: Option<Ticket>, second: Option<Ticket>)
    requires api != "" && KeyOf(f) != KeyOf(g)
    ensures first.Some? && second.Some? && first.value.filters == f && second.value.filters == g
    ensures shownAfter == shownBefore && cacheAfter == map[]
    ensures LoadOutcome(api, today, g, fetch, newDate, dayText).Done? ==>
      && shownFinal == LoadOutcome(api, today, g, fetch, newDate, dayText).value
      && cacheFinal == map[KeyOf(g) := LoadOutcome(api, today, g, fetch, newDate, dayText).value]
      && errFinal == None
    ensures LoadOutcome(api, today, g, fetch, newDate, dayText).Threw? &&
            !LoadOutcome(api, today, g, fetch, newDate, dayText).IsAbort() ==>
      && shownFinal.items == [] && shownFinal.parts == [] && shownFinal.exps == []
      && cacheFinal == map[]
      && errFinal == Some(ErrorText(LoadOutcome(api, today, g, fetch, newDate, dayText).message))
  {
    var page, t1, t2 := Overlap(api, today, f, g);
    first, second := Some(t1), Some(t2);
    shownBefore := page.Shown();
    page.Complete(t1, fetch, newDate, dayText);
    shownAfter, cacheAfter := page.Shown(), page.cache;
    page.Complete(t2, fetch, newDate, dayText);
    shownFinal, cacheFinal, errFinal := page.Shown(), page.cache, page.err;
  }

  /** The first load of a fresh page: mounting starts today's daily load
      under a controller nobody has aborted, and when it settles its result
      is shown and cached, or its error clears the rows. Without an endpoint
      mounting only shows the missing-endpoint error. */
  method FirstLoad(api: string, today: string, fetch: Request -> Net, newDate: DateParser, dayText: Date -> string)
    returns (page: ReportPage, t: Option<Ticket>)
    ensures fresh(page) && page.Valid() && !page.loading
    ensures api == "" ==>
      && t == None && page.err == Some(NoEndpointError)
      && page.Shown() == Entry([], [], [], None) && page.cache == map[]
    ensures api != "" ==> t == Some(Ticket(0, Daily(Some(today))))
    ensures var o := LoadOutcome(api, today, Daily(Some(today)), fetch, newDate, dayText);
      api != "" && o.Done? ==>
      && page.Shown() == o.value && page.err == None
      && page.cache == map[KeyOf(Daily(Some(today))) := o.value]
    ensures var o := LoadOutcome(api, today, Daily(Some(today)), fetch, newDate, dayText);
      api != "" && o.Threw? ==>
      && page.Shown() == Entry([], [], [], None) && page.cache == map[]
      && page.err == (if o.IsAbort() then None else Some(ErrorText(o.message)))
  {
    page := new ReportPage(api, today);
    t := page.Mount();
    if t.Some? {
      page.Complete(t.value, fetch, newDate, dayText);
    }
  }
}
