# Repair-report dashboard: a verified model of its data layer

The dashboard lists bus repair jobs. It loads them from an export API by day, by date
range, as a vehicle's history, or as all jobs still open. It then filters them on the
client, joins each job to its used parts and other costs, and shows a job's summary and
work reports. A vehicle picker searches a second API. This project models the logic under
that user interface:

- the shaping of JSON responses;
- the job-status predicates;
- the client-side filters and the detail join;
- the cache key and the loading state machine of the report page;
- the paged loader and the response checks of both API clients;
- the picker's endpoint derivation and row normalisation;
- the text helpers of the summary and work-report panels;
- the filter drawer's state.

Rendering is not modelled.

The modules follow the source files:

| module | file(s) | models |
|---|---|---|
| `JsValues` | `js_values.dfy` | JSON values, truthiness, `??`, `\|\|`, `String(v)`, `Number(v)` and `JSON.stringify` |
| `JsStrings` | `js_strings.dfy` | the string built-ins: `trim`, `includes`, `slice`, `parseInt`, `Number`, `localeCompare` |
| `Http` | `http.dfy` | requests, responses and the `fetch` oracle |
| `SeqUtil` | `seq_util.dfy` | `filter` and `map` |
| `StableSort` | `stable_sort.dfy` | `Array.prototype.sort`: an in-place insertion sort on an array, specified by a stable sort on sequences |
| `RepairTypes` | `types_repair.dfy` | `src/types/repair.ts` |
| `DateTime` | `utils_datetime.dfy` | `src/utils/datetime.ts` |
| `RepairUtils` | `utils_repair.dfy` | `src/utils/repair.ts` |
| `ReportShaping` | `report_shaping.dfy` | `coerceRows`, `getTableRows`, `isPending` and the mappers of `src/pages/ReportPage.tsx` |
| `ReportFetch` | `report_fetch.dfy` | `fetchJSON` and the page loop `fetchRepairAllPages` |
| `FilterDrawer` | `filter_drawer.dfy` | `src/components/report/FilterDrawer.tsx`, as a class |
| `ReportKey` | `report_key.dfy` | `keyOf` and its injectivity |
| `ReportLoader` | `report_loader.dfy` | `loadByFilters`, as a class holding the page's state |
| `ReportFilter` | `report_filter.dfy` | the `filtered` memo and the detail join |
| `VehicleApiClient` | `vehicle_api.dfy` | `src/lib/vehicleApi.ts` |
| `VehiclePicker` | `vehicle_picker.dfy` | `src/components/vehicle/VehiclePickerModal.tsx` |
| `SummaryPanel` | `summary_panel.dfy` | `src/components/report/DetailsModal/SummaryPanel.tsx` |
| `WorkReportPanel` | `work_report_panel.dfy` | `src/components/report/DetailsModal/WorkReportPanel.tsx` |

Modelling conventions:

- **Missing fields.** JavaScript's `undefined` is `None`. A field read `v?.k` is `Field(v, k)`.
- **Oracles.** The network, the date parser `new Date(s)` and the Thai-locale formatting are
  function parameters. These are `fetch: Request -> Net`, `newDate: string -> Option<Date>`
  (`None` is an invalid date) and `dateTimeText`/`dayText: Date -> string`.
- **Environment settings.** `VITE_EXPORT_ALL`, `VITE_API_BASE_URL`, `VITE_VEHICLE_API` and
  `VITE_API_TOKEN` are parameters, as is the clock (`Date.now()`, today's date).
- **Sorts.** Every `arr.sort(cmp)` of the source is the one `StableSort.InsertionSort`. It runs
  on an array, with `cmp(a, b) < 0` as its "strictly before". This matches the stable sort
  ECMAScript requires.
- **Report loading.** `loadByFilters` is split at its first `await`:
  - `ReportPage.Begin` is the synchronous part. It handles the guards, shows a cached entry
    and aborts the previous request.
  - `ReportPage.Complete` runs once the response has settled. Its fetch sees a rejected
    `AbortError` when the controller has been aborted in between.

In a few places the code does something other than its names and comments suggest. The
model follows the code:

- A failed status in `fetchJSON` always reports the raw body (`text.slice(0, 300)`). An error
  from the parsed body is thrown inside a `try` whose bare `catch` replaces it with the
  raw-body error (src/pages/ReportPage.tsx:40-46).
- `billRaw` in the summary panel is always `fmt(r_inv_com)`. `fmt` never returns "", so the
  later alternatives are never read (src/components/report/DetailsModal/SummaryPanel.tsx:61-65).
- A quantity is `Number(x ?? 0)`, and `??` replaces only null and undefined. A quantity that
  is not numeric text therefore gives NaN, not 0 (src/pages/ReportPage.tsx:132, 141;
  `ReportShaping.QuantityNotNumber`).
- A failed load clears the rows even when a cached entry for the same key was shown a moment
  before (src/pages/ReportPage.tsx:272-278, 400-404; `ReportLoader.ReportPage.Complete`).
- The `if (key)` guard around the keyword test is not needed. Every text includes "", so an
  empty keyword would pass the inclusion test anyway (src/pages/ReportPage.tsx:416-429;
  `ReportFilter.KeywordGuardRedundant`).
- A selected job with an empty or missing `r_job_num` lists every part and expense whose job
  number is also empty or missing, because `clean(undefined)` is "" and the test is
  `clean(p.up_job_num) === num` (src/pages/ReportPage.tsx:505, 518;
  `ReportFilter.BlankJobNumberMatchesBlank`). This is an observation from reading the code;
  nothing was executed.

## Model

| member | source | states |
|---|---|---|
| JsStrings.TrimStart | src/utils/repair.ts:7 | what `trimStart` keeps starts with no white space, and everything it drops is white space |
| JsStrings.TrimStartSuffix | src/utils/repair.ts:7 | what `trimStart` keeps is a suffix of the input |
| JsStrings.TrimEnd | src/utils/repair.ts:7 | what `trimEnd` keeps is a prefix that does not end in white space, and the rest is white space |
| JsStrings.Trim | src/utils/repair.ts:7 | `trim` leaves no white space at either end |
| JsStrings.TrimOfTrimmed | src/utils/repair.ts:7 | trimming a string with no white space at its ends leaves it unchanged |
| JsStrings.TrimIdempotent | src/utils/repair.ts:7 | trimming twice is trimming once |
| JsStrings.TrimEndAppendSpace | src/utils/repair.ts:4 | appending white space does not change what `trimEnd` keeps (the trailing `\s*` of the not-finished pattern) |
| JsStrings.LowerChar | src/pages/ReportPage.tsx:413 | `toLowerCase` maps `A`..`Z` to `a`..`z` and leaves every other character alone |
| JsStrings.ToLower | src/pages/ReportPage.tsx:413 | lower-casing keeps the length and maps each character |
| JsStrings.ContainsEmpty | src/pages/ReportPage.tsx:429 | every text includes the empty string |
| JsStrings.Take | src/lib/vehicleApi.ts:22 | `slice(0, n)` is the prefix of length min(n, length) |
| JsStrings.NatToString | src/components/report/DetailsModal/SummaryPanel.tsx:36 | `String(n)` of a natural number is a non-empty run of decimal digits with no superfluous leading zero |
| JsStrings.IntToString | src/components/report/DetailsModal/SummaryPanel.tsx:36 | `String(n)` is the digits of the magnitude, with a "-" only for negative n |
| JsStrings.LeadingDigits | src/components/vehicle/VehiclePickerModal.tsx:42 | the leading run of decimal digits: a prefix made of digits that is followed by no digit |
| JsStrings.ParseInt | src/components/vehicle/VehiclePickerModal.tsx:42 | `parseInt(s, 10)` gives no number exactly when no digit follows the leading white space and optional sign |
| JsStrings.LeadingDigitsOfDigits | src/components/vehicle/VehiclePickerModal.tsx:42 | a text made only of digits is its own leading run |
| JsStrings.ParseIntOfIntToString | src/components/vehicle/VehiclePickerModal.tsx:42 | `parseInt(String(n), 10) == n` |
| JsStrings.TrimOfIntToString | src/components/vehicle/VehiclePickerModal.tsx:42 | the decimal form of an integer has no white space to trim |
| JsStrings.StringToNumberOfIntToString | src/components/report/DetailsModal/WorkReportPanel.tsx:36 | `Number(String(n)) == n` |
| JsStrings.NumberOfNatural | src/components/report/DetailsModal/WorkReportPanel.tsx:36 | `Number` reads the decimal form of a natural number back as that number |
| JsStrings.NumberOfNegative | src/components/report/DetailsModal/WorkReportPanel.tsx:36 | `Number("-" + digits)` is the negated value of the digits |
| JsStrings.LessIrreflexive | src/components/report/DetailsModal/WorkReportPanel.tsx:38 | no string compares before itself |
| JsStrings.LessTransitive | src/components/report/DetailsModal/WorkReportPanel.tsx:38 | the string order is transitive |
| JsStrings.LessTotal | src/components/report/DetailsModal/WorkReportPanel.tsx:38 | of two different strings, one compares before the other |
| JsValues.Coalesce | src/types/repair.ts:85 | `a ?? b` is a unless a is null or undefined, and b otherwise |
| JsValues.OrElse | src/components/report/DetailsModal/SummaryPanel.tsx:60 | `a \|\| b` is a when a is truthy, and b otherwise |
| JsValues.Lookup | src/pages/ReportPage.tsx:85 | a field lookup finds a field exactly when one of that name exists, and its value is that field's |
| JsValues.LookupFirst | src/pages/ReportPage.tsx:85 | the value found is that of the first field of that name, so duplicate keys are read by their first occurrence |
| JsValues.Field | src/pages/ReportPage.tsx:85 | only an object has fields: `v?.[k]` is undefined for every other value, and an object's leading field named k is found |
| JsValues.ToStr | src/pages/ReportPage.tsx:70 | `String(v)`: a string is itself, a number's decimal form reads back as that number, an object is "[object Object]", an empty array "" |
| JsValues.StringOf | src/pages/ReportPage.tsx:126 | `String(v)` is "undefined" for a missing value and "null" for null, and otherwise agrees with `String(v ?? "")` |
| JsValues.Stringify | src/pages/ReportPage.tsx:240 | `JSON.stringify` never gives ""; strings come out quoted, arrays in brackets and objects in braces |
| JsValues.StringOrEmpty | src/pages/ReportPage.tsx:70 | `String(v ?? "")` is "" for null and undefined, and `String(v)` otherwise |
| Http.UrlText | src/pages/ReportPage.tsx:182 | the URL text starts with the location, and is followed by "?" and the query exactly when there is a query |
| JsValues.ToNumber | src/pages/ReportPage.tsx:132 | `Number(v)`: numbers as they are, booleans 0 or 1, null 0, strings through `StringToNumber` of their text, objects NaN, the empty array 0 and a one-number array that number |
| JsValues.EscChar | src/pages/ReportPage.tsx:240-249 | how `JSON.stringify` writes one character: quote, backslash and control characters escaped, every other character as it is |
| JsValues.Escape | src/pages/ReportPage.tsx:240-249 | the escaped text of a string is the concatenation of its characters' escapes |
| JsValues.Quote | src/pages/ReportPage.tsx:240-249 | `JSON.stringify` of a string is its escaped text between quotes |
| JsValues.HexDigitInjective | src/pages/ReportPage.tsx:240-249 | distinct hexadecimal digit values are written differently |
| JsValues.EscLenOfEscChar | src/pages/ReportPage.tsx:240-249 | the length of a character's escape can be read off its first two characters |
| JsValues.EscCharInjective | src/pages/ReportPage.tsx:240-249 | distinct characters have distinct escapes |
| JsValues.EscCharPrefixFree | src/pages/ReportPage.tsx:240-249 | no escape is a proper prefix of another, so the escapes form a prefix-free code |
| JsValues.EscapeInjective | src/pages/ReportPage.tsx:240-249 | the escaped text ends at the first unescaped quote, so the string and what follows its closing quote can be read back |
| JsValues.EscapeHead | src/pages/ReportPage.tsx:240-249 | the escaped text of a non-empty string starts with its first character's escape, which is not a quote |
| JsValues.QuoteInjective | src/pages/ReportPage.tsx:240-249 | two quoted strings followed by anything are equal only when the strings and the rests are |
| SeqUtil.Filter | src/pages/ReportPage.tsx:415 | `filter` keeps a subsequence whose every element passes |
| SeqUtil.FilterMember | src/pages/ReportPage.tsx:415 | an element is kept exactly when it occurs in the input and passes |
| SeqUtil.Map | src/pages/ReportPage.tsx:506 | `map` keeps the length and applies f at every index |
| SeqUtil.FilterAppend | src/pages/ReportPage.tsx:415 | filtering a concatenation is the concatenation of the filtered parts, so input order is kept |
| SeqUtil.FilterCount | src/pages/ReportPage.tsx:504-505 | a passing element is kept as often as it occurs, and a failing one never |
| SeqUtil.FilterAll | src/pages/ReportPage.tsx:415 | a filter that passes everything keeps the sequence |
| SeqUtil.FilterIdempotent | src/pages/ReportPage.tsx:415 | filtering twice with one predicate is filtering once |
| SeqUtil.FilterCongruent | src/pages/ReportPage.tsx:415 | predicates that agree on the elements give the same filter |
| StableSort.InsertLast | src/pages/ReportPage.tsx:79 | inserting into a sequence adds exactly one element |
| StableSort.Sort | src/pages/ReportPage.tsx:79 | the sorted sequence has the input's length |
| StableSort.InsertLastPermutation | src/pages/ReportPage.tsx:79 | insertion adds x to the multiset of elements |
| StableSort.SortPermutation | src/pages/ReportPage.tsx:79 | the sorted sequence is a permutation of the input |
| StableSort.InsertLastSorted | src/pages/ReportPage.tsx:79 | inserting into a sorted sequence keeps it sorted when the comparator is a strict weak order |
| StableSort.SortSorted | src/pages/ReportPage.tsx:79 | under a strict weak order, no element of the result is strictly before an element preceding it |
| StableSort.InsertLastFilter | src/pages/ReportPage.tsx:79 | insertion adds x last among the elements of a class none of which it is strictly before |
| StableSort.TiedNotBefore | src/pages/ReportPage.tsx:79 | two elements tied with a third are not strictly ordered |
| StableSort.SortStable | src/components/vehicle/VehiclePickerModal.tsx:81-85 | stability: the elements tied with any e come out in input order |
| StableSort.FilterUnordered | src/components/vehicle/VehiclePickerModal.tsx:81-85 | a class of mutually unordered elements keeps its input order |
| StableSort.InsertionSort | src/components/vehicle/VehiclePickerModal.tsx:81 | the in-place sort leaves the array holding the stable sort of its old contents |
| RepairTypes.IsClosedCases | src/types/repair.ts:77-82 | `isClosed`: false for a missing row; for a number, true exactly when it is 1; for a string, exactly when it is "1" ("true" and "01" are not) |
| RepairTypes.IsClosed | src/types/repair.ts:77-82 | closed exactly when `r_close` is the number 1 or the string "1"; the row's own truthiness test is implied by having a field |
| RepairTypes.VehicleLengthText | src/types/repair.ts:84-88 | `r_v_metr`, or `r_v_len_m` when that is null or undefined, trimmed; "" when blank, else followed by " เมตร" |
| RepairTypes.VehicleLengthPrefersMetr | src/types/repair.ts:85 | an empty `r_v_metr` gives "" and does not fall back to `r_v_len_m` |
| DateTime.ReplaceFirstSpace | src/utils/datetime.ts:3 | `replace(" ", "T")` keeps the length and changes nothing in a text without a space |
| DateTime.ParseDate | src/utils/datetime.ts:1-5 | no date for a missing or empty input, otherwise the parse of the text with its first space made "T" |
| DateTime.ToDateTime | src/utils/datetime.ts:7-15 | ("-", "-") for a missing input, (s, "-") when s does not parse, the formatted date and time otherwise |
| DateTime.IsSameDayEquivalence | src/utils/datetime.ts:17-18 | `isSameDay` is reflexive, symmetric and transitive |
| DateTime.Fmt | src/utils/datetime.ts:20-25 | the fallback for null, undefined and the number 0; `String(n)` for other numbers; the string rule for strings |
| DateTime.FmtText | src/utils/datetime.ts:23-24 | the fallback when the trimmed text is "" or "0", otherwise the trimmed text |
| DateTime.FmtNonEmpty | src/utils/datetime.ts:20-25 | with a non-empty fallback, `fmt` never returns "" |
| RepairUtils.Normalize | src/utils/repair.ts:6-8 | "" for null and undefined, the trimmed text for strings, and never white space at either end |
| RepairUtils.NotFinishedStem | src/utils/repair.ts:4 | every alternative of the not-finished pattern is at most 19 characters long and none ends in white space |
| RepairUtils.NotFinished | src/utils/repair.ts:4 | a text that does not end in white space is not-finished exactly when it is one of the alternatives |
| RepairUtils.NotFinishedMeaning | src/utils/repair.ts:4 | the pattern holds exactly when some prefix is an alternative ("", a zero date with an optional zero time, "working..." in any case, "-") and the rest is white space |
| RepairUtils.IsClosedByCloseDt | src/utils/repair.ts:10-15 | closed by date exactly when the trimmed close date is not not-finished and parses; the test for "" is subsumed by the pattern |
| RepairUtils.CloseText | src/utils/repair.ts:17-27 | "Working..." exactly when the trimmed close date is empty or not-finished; the raw text when it does not parse; the formatted date otherwise |
| RepairUtils.ClosedShowsDate | src/utils/repair.ts:10-15 | a job that `isClosedByCloseDt` accepts shows its formatted close date |
| RepairUtils.CleanZeroLike | src/utils/repair.ts:29-32 | "" exactly for the trimmed "", "0000-00-00" and "0000-00-00 00:00:00"; otherwise the trimmed value |
| RepairUtils.CleanZeroLikeIdempotent | src/utils/repair.ts:29-32 | cleaning twice is cleaning once |
| ReportShaping.Values | src/pages/ReportPage.tsx:79 | the values of the fields, in field order |
| ReportShaping.CoerceRows | src/pages/ReportPage.tsx:72-83 | [] when falsy; an array as it is; the array under `rows`; the values of a digit-keyed object by ascending key; [] for anything else |
| ReportShaping.KeyBeforeOrder | src/pages/ReportPage.tsx:79 | the comparator `+a - +b` on digit keys is a strict weak order |
| ReportShaping.CoerceDigitKeyed | src/pages/ReportPage.tsx:77-79 | a digit-keyed object gives the values of its fields sorted by numeric key |
| ReportShaping.ByKeyPermutation | src/pages/ReportPage.tsx:79 | the fields in key order are a permutation of the object's fields |
| ReportShaping.ByKeySorted | src/pages/ReportPage.tsx:79 | the fields in key order have non-decreasing numeric keys |
| ReportShaping.CoerceRowsIdempotent | src/pages/ReportPage.tsx:74 | coercing coerced rows changes nothing |
| ReportShaping.GetTableRows | src/pages/ReportPage.tsx:84-89 | the rows of `tables[T].rows`, else of `tables[T]`, else of `json[T]`, the first that is truthy |
| ReportShaping.GetTableRowsMissing | src/pages/ReportPage.tsx:88 | with no table anywhere there are no rows |
| ReportShaping.NotPendingMeaning | src/pages/ReportPage.tsx:111-121 | a job is not pending exactly when its close date (`r_dt_close`, else `r_close_dt`) is not a zero date and its trimmed `r_close` is not "", "0" or "false" |
| ReportShaping.IsZeroLikeDate | src/pages/ReportPage.tsx:111-114 | a value is zero-like exactly when `cleanZeroLike` makes it "" |
| ReportShaping.IsPending | src/pages/ReportPage.tsx:115-121 | a job without a close flag, or without a close date under either name, is pending |
| ReportShaping.PendingThoughClosed | src/pages/ReportPage.tsx:115-121 | a job with `r_close` "1" and no close date is closed by `isClosed` and pending by `isPending` |
| ReportShaping.FlagTwoNeither | src/pages/ReportPage.tsx:115-121 | a job with a real close date and `r_close` 2 is neither closed nor pending |
| ReportShaping.NormalizeTwo | src/utils/repair.ts:7 | the number 2 normalises to "2" |
| ReportShaping.MapPart | src/pages/ReportPage.tsx:124-135 | `mapPartFromDB`: id is `String(up_id)`; the record time is kept as it is; each text field is `String(v ?? "")` of its own column; the quantity is 0 when null or missing and `Number(v)` otherwise |
| ReportShaping.MapExpense | src/pages/ReportPage.tsx:136-144 | `mapExpenseFromDB`: id is `String(oc_id)`; the record time is kept as it is; name and unit are `String(v ?? "")` of their columns; the quantity is 0 when null or missing and `Number(v)` otherwise |
| ReportShaping.QuantityNotNumber | src/pages/ReportPage.tsx:132 | a quantity that is not numeric text maps to NaN, not 0, because `??` replaces only null and undefined |
| ReportShaping.MissingPartId | src/pages/ReportPage.tsx:126 | a part without an id shows the id "undefined" |
| ReportFetch.FetchJson | src/pages/ReportPage.tsx:34-56 | a value exactly for an ok response whose body parses; a rejected fetch rethrows its error; a failed status gives `HTTP <status> @ <url>` and the first 300 characters of the body; an unparseable body gives the "JSON parse error" or "Not JSON" message |
| ReportFetch.FailedStatusIgnoresBody | src/pages/ReportPage.tsx:39-47 | whether a failed response's body parses makes no difference to the error |
| ReportFetch.FetchJsonAbort | src/pages/ReportPage.tsx:34-56 | the result is an AbortError exactly when the fetch rejected with one |
| ReportFetch.UnparseableKind | src/pages/ReportPage.tsx:49-56 | an unparseable body gives "JSON parse error…" exactly when the content type has the word json, else "Not JSON…" |
| ReportFetch.MentionsJsonExamples | src/pages/ReportPage.tsx:52 | `/\bjson\b/i` matches "application/json; charset=utf-8" but not "application/jsonp" or "text/html" |
| ReportFetch.PageUrl | src/pages/ReportPage.tsx:170-182 | a page's URL carries the shared parameters, then `page` as `{"repair":n}` |
| ReportFetch.DailyUrl | src/pages/ReportPage.tsx:292-300 | the daily request asks for one day as both `from` and `to` |
| ReportFetch.TotalPages | src/pages/ReportPage.tsx:186-190 | the page count taken from a response is at least 1 |
| ReportFetch.TotalPagesReported | src/pages/ReportPage.tsx:186-190 | for any response, a reported `tables.repair.meta.totalPages` of at least 1 is taken as it is; a lower one, a missing one or null gives 1 |
| ReportFetch.RequestedInOrder | src/pages/ReportPage.tsx:170-193 | the loop requests pages p, p+1, … in order, and never a page past 2000 |
| ReportFetch.PagesFromRows | src/pages/ReportPage.tsx:166-196 | a successful loop returns the rows of every page it requested, in page order; a failed one fails with the error of its last request |
| ReportFetch.PagesFrom | src/pages/ReportPage.tsx:166-196 | an error on a page ends the loop with that error; a successful loop starts with the page's rows; a failed loop fails with the error of one of its pages |
| ReportFetch.FetchRepairAllPages | src/pages/ReportPage.tsx:147-197 | `fetchRepairAllPages` returns the outcome of the page loop over the pages of its URL; pageSize, orderBy and order are fixed at DEFAULT_PAGE_SIZE, "r_id" and "desc", the values every caller passes |
| ReportFetch.FetchPages | src/pages/ReportPage.tsx:166-196 | the `while` loop gives the rows and the requested pages its specification gives |
| FilterDrawer.InitialFields | src/components/report/FilterDrawer.tsx:15-20 | each input starts as the initial filter's value (or "") when the initial mode owns it, and "" otherwise |
| FilterDrawer.SubmitOf | src/components/report/FilterDrawer.tsx:39-44 | `submit` produces the variant of the active mode, carrying exactly that mode's fields |
| FilterDrawer.SubmitInitial | src/components/report/FilterDrawer.tsx:13-44 | submitting an unedited drawer gives back its initial filter, with missing fields as "" |
| FilterDrawer.SubmitIgnoresOtherFields | src/components/report/FilterDrawer.tsx:39-44 | inputs the active mode does not own make no difference to the submitted filter |
| FilterDrawer.OnlyOpen | src/components/report/FilterDrawer.tsx:23-37 | after `active` changes, exactly the active mode's section is open |
| FilterDrawer.Toggle | src/components/report/FilterDrawer.tsx:62 | a click flips only its own section's flag |
| FilterDrawer.Drawer.constructor | src/components/report/FilterDrawer.tsx:13-28 | the drawer mounts with the initial mode active, its inputs derived from the filter, and only that section open |
| FilterDrawer.Drawer.Click | src/components/report/FilterDrawer.tsx:61-88 | a click makes its mode active; a new mode leaves only its section open; a repeated click toggles it; no input changes |
| FilterDrawer.Drawer.SetFrom | src/components/report/FilterDrawer.tsx:64 | only the `from` input changes |
| FilterDrawer.Drawer.SetTo | src/components/report/FilterDrawer.tsx:66 | only the `to` input changes |
| FilterDrawer.Drawer.SetDate | src/components/report/FilterDrawer.tsx:72 | only the `date` input changes |
| FilterDrawer.Drawer.SetCarName | src/components/report/FilterDrawer.tsx:83 | only the `carName` input changes |
| FilterDrawer.Drawer.SetPlate | src/components/report/FilterDrawer.tsx:85 | only the `plate` input changes |
| FilterDrawer.Drawer.SetVin | src/components/report/FilterDrawer.tsx:87 | only the `vin` input changes |
| FilterDrawer.Drawer.Submit | src/components/report/FilterDrawer.tsx:39-44 | the drawer's `submit` is the active mode's variant with the current inputs |
| FilterDrawer.OpenAndSubmit | src/components/report/FilterDrawer.tsx:13-88 | opening on a filter and submitting gives it back, also after clicking another section and back |
| ReportKey.ModeName | src/pages/ReportPage.tsx:250 | the mode names "custom", "daily", "pendingAll", "history" |
| ReportKey.SetField | src/pages/ReportPage.tsx:240-249 | assigning a property sets that one and leaves the others |
| ReportKey.LookupSpread | src/pages/ReportPage.tsx:240-249 | after `{...base, …}` a property has its last assigned value, or its old one |
| ReportKey.KeyOf | src/pages/ReportPage.tsx:239-251 | the key is the mode name, a colon and the text of the key object |
| ReportKey.KeyObjectFields | src/pages/ReportPage.tsx:242-248 | each optional field shows in the key object as its value, or null when missing |
| ReportKey.DefaultsLast | src/pages/ReportPage.tsx:242-248 | the defaulted properties take the values the literal gives them |
| ReportKey.LastValueDistinct | src/pages/ReportPage.tsx:242-248 | with distinct names, the last assignment of a name is its only one |
| ReportKey.KeyObjectFlat | src/pages/ReportPage.tsx:240-249 | the key object holds only strings and nulls |
| ReportKey.Members | src/pages/ReportPage.tsx:240 | the member texts of an object: one per field |
| ReportKey.StringifyObject | src/pages/ReportPage.tsx:240 | `JSON.stringify` of an object is its member texts joined by commas in braces |
| ReportKey.FlatValueInjective | src/pages/ReportPage.tsx:240 | the text of a string or null value, followed by anything, can be read back |
| ReportKey.FlatMembersInjective | src/pages/ReportPage.tsx:240 | the members of an object of strings and nulls can be read back from its text |
| ReportKey.AfterInjective | src/pages/ReportPage.tsx:240 | the texts after equal first members are equal only for equal remaining fields |
| ReportKey.ModeNameFirst | src/pages/ReportPage.tsx:250 | distinct modes have names that differ in the first letter |
| ReportKey.KeyOfInjective | src/pages/ReportPage.tsx:239-251 | distinct filters have distinct cache keys |
| ReportKey.KeyTextInjective | src/pages/ReportPage.tsx:250 | the key text gives back the mode and the object |
| ReportKey.OrNullInjective | src/pages/ReportPage.tsx:242-248 | filters of one mode with the same defaulted fields are equal |
| ReportKey.MissingIsNotEmpty | src/pages/ReportPage.tsx:242-248 | a missing field (null) and an empty one ("") make different keys |
| ReportLoader.DailyDay | src/pages/ReportPage.tsx:292 | the daily load's day is the filter's date when given, else today |
| ReportLoader.CustomRange | src/pages/ReportPage.tsx:316-317 | a given bound is kept; a single given bound is used for both ends; with none, both are today |
| ReportLoader.HistoryLabel | src/pages/ReportPage.tsx:349-353 | the label names the first given of plate, car name and chassis number, else the selected vehicle |
| ReportLoader.WithRows | src/pages/ReportPage.tsx:331-336 | a paged load shows its rows, no parts or expenses, and its label; errors pass through |
| ReportLoader.DailyEntry | src/pages/ReportPage.tsx:303-311 | the daily load shows the repair, used-parts and other-cost tables of one response, and no label |
| ReportLoader.NonDailyHasNoParts | src/pages/ReportPage.tsx:315-381 | every mode but daily shows no parts or expenses, and carries a label |
| ReportLoader.LoadOutcome | src/pages/ReportPage.tsx:290-381 | a successful load carries a label exactly when its mode is not daily; pendingAll's is its fixed label |
| ReportLoader.AbortedLoad | src/pages/ReportPage.tsx:400-401 | once the controller is aborted, every load settles as an AbortError |
| ReportLoader.RunLoad | src/pages/ReportPage.tsx:290-399 | the `try` block gives the outcome of the mode's load |
| ReportLoader.ErrorText | src/pages/ReportPage.tsx:405 | the error's message, or the default message when it has none; never "" |
| ReportLoader.ReportPage.constructor | src/pages/ReportPage.tsx:202-237 | the page mounts empty, not loading, with today's daily filter, an empty cache and no controller |
| ReportLoader.ReportPage.Begin | src/pages/ReportPage.tsx:260-288 | no endpoint gives an error; a repeated key while loading changes nothing; otherwise the error is cleared, loading starts, a cached entry is shown, and the old controller is aborted for a new one |
| ReportLoader.ReportPage.Complete | src/pages/ReportPage.tsx:290-408 | a result is shown and cached under the key; an AbortError changes nothing; another error clears the rows and shows its message; loading ends false |
| ReportLoader.ReportPage.HandleFilterSubmit | src/pages/ReportPage.tsx:524-528 | the error is cleared and the filter taken; then, as for `loadByFilters` with the cache on, the whole new state in each of the three cases: no endpoint (only the error set), the same key already loading (nothing else changes), or a new load (old controller aborted, a new current one, loading, the key recorded, a cached entry shown) |
| ReportLoader.ReportPage.Mount | src/pages/ReportPage.tsx:254-257 | the mount effect is `loadByFilters` of today's daily filter with the cache on, with the whole new state in each of the three cases; the filter and the cache are unchanged |
| ReportLoader.FirstLoad | src/pages/ReportPage.tsx:254-257 | on a fresh page, mounting then settling shows and caches today's daily entry under its key, or clears the rows and shows the error; without an endpoint only the missing-endpoint error appears |
| ReportLoader.SupersededStart | src/pages/ReportPage.tsx:285-287 | starting a request keeps every controller but the newest aborted |
| ReportLoader.Overlap | src/pages/ReportPage.tsx:285-288 | after two loads start on a fresh page, the first one's controller is aborted, the second one's is not, and nothing is cached |
| ReportLoader.Supersede | src/pages/ReportPage.tsx:285-288 | when the superseded first load settles, the page shows what it showed and caches nothing; when the second settles, its result is shown and cached under its own key, or its error clears the rows and is shown |
| ReportFilter.HayFields | src/pages/ReportPage.tsx:417-427 | the eight searched fields, lower-cased when truthy and "" otherwise |
| ReportFilter.FilteredRows | src/pages/ReportPage.tsx:412-485 | the list is what passes of the items, in order, each as often as loaded |
| ReportFilter.Keep | src/pages/ReportPage.tsx:415-485 | a kept row matches the keyword; pendingAll keeps pending rows only; the technician is checked in the daily and custom modes only |
| ReportFilter.Filtered | src/pages/ReportPage.tsx:412-486 | the list is no longer than the items, and every row of it passes `Keep` |
| ReportFilter.FilteredAppend | src/pages/ReportPage.tsx:415 | filtering keeps order across batches |
| ReportFilter.BlankKeyword | src/pages/ReportPage.tsx:413-416 | a blank search text narrows nothing |
| ReportFilter.KeywordGuardRedundant | src/pages/ReportPage.tsx:416-429 | the `if (key)` guard changes nothing: every text includes the empty keyword |
| ReportFilter.KeptHasKeyword | src/pages/ReportPage.tsx:416-430 | a kept row contains the lower-cased keyword in its joined text |
| ReportFilter.PendingAllRows | src/pages/ReportPage.tsx:448 | pendingAll lists exactly the pending rows that match the keyword |
| ReportFilter.TechnicianNarrows | src/pages/ReportPage.tsx:439-444 | a technician narrows only the daily and custom lists |
| ReportFilter.HistoryKept | src/pages/ReportPage.tsx:450-463 | a history row is kept only when each given parameter occurs in its column, chassis falling back to job number |
| ReportFilter.DailyKept | src/pages/ReportPage.tsx:432-438 | a daily filter with a day keeps only rows recorded on that day |
| ReportFilter.CustomOneEnd | src/pages/ReportPage.tsx:465-473 | a range with one end given spans that single day |
| ReportFilter.PartsForSelected | src/pages/ReportPage.tsx:500-507 | no job selected gives no parts; otherwise the job's parts, mapped |
| ReportFilter.ExpensesForSelected | src/pages/ReportPage.tsx:509-521 | no job selected gives no expenses; otherwise the job's expenses, mapped |
| ReportFilter.JobPartsMember | src/pages/ReportPage.tsx:505 | a part is listed exactly when its trimmed job id or job number matches |
| ReportFilter.BlankJobNumberMatchesBlank | src/pages/ReportPage.tsx:499-505 | a selected job whose job number is blank lists every part whose job number is missing |
| ReportFilter.JobPartsCount | src/pages/ReportPage.tsx:505 | a listed part appears as often as it was loaded |
| ReportFilter.JobExpensesMember | src/pages/ReportPage.tsx:514-519 | an expense is listed exactly when its job id or reference id matches the id, or its job number the number |
| ReportFilter.JobExpensesCount | src/pages/ReportPage.tsx:514-519 | a listed expense appears as often as it was loaded |
| ReportFilter.JobPartsAppend | src/pages/ReportPage.tsx:504-505 | the parts join keeps the order of the loaded rows |
| ReportFilter.JobExpensesAppend | src/pages/ReportPage.tsx:513-519 | the expenses join keeps the order of the loaded rows |
| VehicleApiClient.StripLeadingSlashes | src/lib/vehicleApi.ts:5 | the path loses all and only its leading slashes |
| VehicleApiClient.ParamText | src/lib/vehicleApi.ts:9 | objects and arrays are JSON-encoded, other values go through `String` |
| VehicleApiClient.Get | src/lib/vehicleApi.ts:9 | a parameter is absent exactly when no pair has its name |
| VehicleApiClient.Without | src/lib/vehicleApi.ts:9 | removing a name removes it and keeps every other |
| VehicleApiClient.Set | src/lib/vehicleApi.ts:9 | `set` gives the name the value and keeps every other name |
| VehicleApiClient.LastGiven | src/lib/vehicleApi.ts:7-8 | the last value given for a name that is neither undefined nor null |
| VehicleApiClient.QueryGet | src/lib/vehicleApi.ts:6-11 | each URL parameter holds the text of the last value given for it; a name given only undefined or null is absent |
| VehicleApiClient.Location | src/lib/vehicleApi.ts:5 | base, one slash, the path without leading slashes |
| VehicleApiClient.BuiltUrl | src/lib/vehicleApi.ts:4-13 | no parameters gives an empty query |
| VehicleApiClient.LeadingSlashesIgnored | src/lib/vehicleApi.ts:5 | a leading slash on the path makes no difference |
| VehicleApiClient.BuildUrl | src/lib/vehicleApi.ts:4-13 | the loop over the entries builds the URL its specification gives |
| VehicleApiClient.Headers | src/lib/vehicleApi.ts:17-18 | X-Token is sent exactly when a non-empty token is configured |
| VehicleApiClient.SafeRequest | src/lib/vehicleApi.ts:16-20 | the request goes to the built URL with at most the X-Token header |
| VehicleApiClient.Checked | src/lib/vehicleApi.ts:20-26 | status first, then content type, then parse; a value exactly when all three pass; the error messages of each check |
| VehicleApiClient.SafeFetch | src/lib/vehicleApi.ts:15-27 | `safeFetch` gives the checked outcome of its request |
| VehicleApiClient.StatusFirst | src/lib/vehicleApi.ts:22 | a failed status is reported whatever the content type and body |
| VehicleApiClient.ContentTypeBeforeParse | src/lib/vehicleApi.ts:23-26 | a body not declared JSON is never parsed |
| VehiclePicker.SegmentEnd | src/components/vehicle/VehiclePickerModal.tsx:15 | the first delimiter at or after k, or the end |
| VehiclePicker.FirstSegment | src/components/vehicle/VehiclePickerModal.tsx:15 | the leftmost position where the segment pattern matches, and none before it |
| VehiclePicker.StripLastSegment | src/components/vehicle/VehiclePickerModal.tsx:15 | the result is a prefix and differs from the input exactly when the pattern matches |
| VehiclePicker.StripSlashes | src/components/vehicle/VehiclePickerModal.tsx:16 | the input loses all and only its trailing slashes |
| VehiclePicker.ApiRoot | src/components/vehicle/VehiclePickerModal.tsx:13-16 | a PHP-file base loses its last segment; any other base loses its trailing slashes |
| VehiclePicker.Setting | src/components/vehicle/VehiclePickerModal.tsx:8-12 | an unset setting is "", a set one trimmed |
| VehiclePicker.VehicleApi | src/components/vehicle/VehiclePickerModal.tsx:18-19 | the direct setting when set; else the search file under the root; else "" |
| VehiclePicker.EmptyBase | src/components/vehicle/VehiclePickerModal.tsx:18-19 | an empty base gives "" unless the direct setting is given |
| VehiclePicker.StripPhpSegment | src/components/vehicle/VehiclePickerModal.tsx:15 | `root/seg.php[?query]` is stripped to root, in any letter case |
| VehiclePicker.PhpEndpoint | src/components/vehicle/VehiclePickerModal.tsx:13-19 | a PHP-file base gives the search file beside it |
| VehiclePicker.PlainEndpoint | src/components/vehicle/VehiclePickerModal.tsx:13-19 | any other base gives the search file under it without trailing slashes |
| VehiclePicker.ParseIntDigits | src/components/vehicle/VehiclePickerModal.tsx:42 | `parseInt` of a text starting with a digit is its leading digits |
| VehiclePicker.ParseIntMinus | src/components/vehicle/VehiclePickerModal.tsx:42 | after a "-" the leading digits are negated |
| VehiclePicker.ParseIntPlus | src/components/vehicle/VehiclePickerModal.tsx:42 | after a "+" the leading digits are taken |
| VehiclePicker.ParseIntNone | src/components/vehicle/VehiclePickerModal.tsx:42-43 | NaN exactly when no digit follows the optional sign |
| VehiclePicker.ToNumLeading | src/components/vehicle/VehiclePickerModal.tsx:41-44 | `toNum` is the signed leading integer of the trimmed text, or the default when there is none |
| VehiclePicker.ToNumOfNumber | src/components/vehicle/VehiclePickerModal.tsx:41-44 | a number reads back as itself whatever the default |
| VehiclePicker.Fmt | src/components/vehicle/VehiclePickerModal.tsx:103-104 | "" for null, undefined and the blank strings; `String(v)` otherwise |
| VehiclePicker.FmtZeroNumber | src/components/vehicle/VehiclePickerModal.tsx:103-104 | the number 0 prints as "0" |
| VehiclePicker.FmtLen | src/components/vehicle/VehiclePickerModal.tsx:105-108 | the trimmed text, "" for null and undefined |
| VehiclePicker.FmtLenIdempotent | src/components/vehicle/VehiclePickerModal.tsx:105-108 | formatting a formatted length changes nothing |
| VehiclePicker.FmtDate | src/components/vehicle/VehiclePickerModal.tsx:109-113 | "" exactly for a blank or zero date; otherwise at most the first ten characters of the trimmed text |
| VehiclePicker.CoerceArray | src/components/vehicle/VehiclePickerModal.tsx:47-57 | an array as it is, the `rows` array of a wrapper, the values of a digit-keyed object by key, else [] |
| VehiclePicker.CoerceArrayAgrees | src/components/vehicle/VehiclePickerModal.tsx:47-57 | `coerceArray` agrees with `coerceRows` on every value |
| VehiclePicker.FirstPresent | src/components/vehicle/VehiclePickerModal.tsx:62-75 | the first alias whose value is neither null nor undefined, and undefined exactly when none is |
| VehiclePicker.OwnNameWins | src/components/vehicle/VehiclePickerModal.tsx:62-75 | a present value under the picker's own name wins over every alias |
| VehiclePicker.AllMissing | src/components/vehicle/VehiclePickerModal.tsx:62-75 | a field none of whose names is present is "" |
| VehiclePicker.SortOfNumber | src/components/vehicle/VehiclePickerModal.tsx:77 | a numeric `v_sort` is the sort number as it is |
| VehiclePicker.BeforeByKeys | src/components/vehicle/VehiclePickerModal.tsx:81-85 | the comparator orders by sort number, then by numeric id |
| VehiclePicker.BeforeOrder | src/components/vehicle/VehiclePickerModal.tsx:81-85 | the comparator is a strict weak order |
| VehiclePicker.TiedKeys | src/components/vehicle/VehiclePickerModal.tsx:81-85 | rows the comparator does not separate share sort number and id |
| VehiclePicker.Mapped | src/components/vehicle/VehiclePickerModal.tsx:61-78 | one mapped row per coerced row, in order |
| VehiclePicker.MapVehicle | src/components/vehicle/VehiclePickerModal.tsx:61-78 | the picker's own name wins over the aliases (`v_id`, `v_plate`); with no name present the field is ""; the sort number is `toNum` of the first present sort column |
| VehiclePicker.NormalizeRows | src/components/vehicle/VehiclePickerModal.tsx:60-88 | the array copy sorted in place is the stable sort of the mapped rows |
| VehiclePicker.Normalized | src/components/vehicle/VehiclePickerModal.tsx:60-88 | one normalised row per payload element, and the rows are a permutation of the mapped rows |
| VehiclePicker.NormalizedSorted | src/components/vehicle/VehiclePickerModal.tsx:81-85 | the normalised rows ascend by sort number, then by numeric id |
| VehiclePicker.NormalizedStable | src/components/vehicle/VehiclePickerModal.tsx:81-85 | rows with equal sort number and id keep their response order |
| VehiclePicker.Candidate | src/components/vehicle/VehiclePickerModal.tsx:171 | the first present of `rows`, `data`, `result`, else the whole payload |
| VehiclePicker.Unwrap | src/components/vehicle/VehiclePickerModal.tsx:171-172 | the candidate's own `rows` array when it has one, else the candidate |
| VehiclePicker.UnwrapArray | src/components/vehicle/VehiclePickerModal.tsx:171-172 | a bare array is the list itself |
| VehiclePicker.UnwrapDataRows | src/components/vehicle/VehiclePickerModal.tsx:171-172 | a list in `{data: {rows: …}}` is found |
| VehiclePicker.SearchUrl | src/components/vehicle/VehiclePickerModal.tsx:148-153 | `q` only when non-empty, then `limit=2000` and the cache buster |
| VehiclePicker.SearchResponse | src/components/vehicle/VehiclePickerModal.tsx:154-172 | a failed status, an HTML body and invalid JSON give their messages; a parsed body its payload |
| VehiclePicker.ErrorText | src/components/vehicle/VehiclePickerModal.tsx:178 | the error's message, or the default one; never "" |
| VehiclePicker.SearchRowsSorted | src/components/vehicle/VehiclePickerModal.tsx:171-175 | the rows of a successful search are normalised and so sorted |
| VehiclePicker.SearchOutcome | src/components/vehicle/VehiclePickerModal.tsx:148-175 | a search succeeds exactly when its response does, and its rows are then `normalizeRows` of the unwrapped payload (sorted, stable, a permutation of the mapped rows), one per element of the coerced payload; a failed one carries the response's error |
| VehiclePicker.Picker.constructor | src/components/vehicle/VehiclePickerModal.tsx:8-19 | the picker's endpoint is the one its settings give; no rows, no error, not loading |
| VehiclePicker.Picker.Refresh | src/components/vehicle/VehiclePickerModal.tsx:134-186 | closed changes nothing; no endpoint gives its error and no rows; otherwise the search's rows, or its error and no rows; loading ends false |
| SummaryPanel.Slot | src/components/report/DetailsModal/SummaryPanel.tsx:27-28 | a slot is the trimmed value, or " " when missing or blank; never "" |
| SummaryPanel.Slots | src/components/report/DetailsModal/SummaryPanel.tsx:24-29 | exactly n slots, slot i at index i |
| SummaryPanel.FixedSlots | src/components/report/DetailsModal/SummaryPanel.tsx:24-31 | the `for` loop's output joined by two spaces is the specified slot text |
| SummaryPanel.ExtraSlotsIgnored | src/components/report/DetailsModal/SummaryPanel.tsx:26 | slots past the n-th make no difference |
| SummaryPanel.TwoSlots | src/components/report/DetailsModal/SummaryPanel.tsx:30 | two slots are the two values with two spaces between |
| SummaryPanel.Shown | src/components/report/DetailsModal/SummaryPanel.tsx:37 | `fmt` with its default fallback never gives "" |
| SummaryPanel.ThDateTime | src/components/report/DetailsModal/SummaryPanel.tsx:9-21 | "" when the cleaned value is ""; `fmt` of the raw text when it does not parse; the date and time otherwise |
| SummaryPanel.OrderText | src/components/report/DetailsModal/SummaryPanel.tsx:36 | the order number when given and not 0, else " " |
| SummaryPanel.JobTextAlwaysPair | src/components/report/DetailsModal/SummaryPanel.tsx:37-38 | the job slot is always `job / job` |
| SummaryPanel.OrderLineShape | src/components/report/DetailsModal/SummaryPanel.tsx:36-38 | the order line is the order slot, two spaces and the job slot |
| SummaryPanel.OpenJobLine | src/components/report/DetailsModal/SummaryPanel.tsx:41-43 | an open job's line ends with " - Working..." |
| SummaryPanel.BlankNameShowsDash | src/components/report/DetailsModal/SummaryPanel.tsx:47 | a blank or zero vehicle name shows "-" |
| SummaryPanel.LengthTextIsVehicleLength | src/components/report/DetailsModal/SummaryPanel.tsx:52-53 | the brand line's length text is `vehicleLengthText` |
| SummaryPanel.Contractor | src/components/report/DetailsModal/SummaryPanel.tsx:60 | the contractor is `fmt(r_v_company \|\| r_contractor)` |
| SummaryPanel.BillRawIsInvCom | src/components/report/DetailsModal/SummaryPanel.tsx:61-65 | `billRaw` is always `fmt(r_inv_com)` |
| SummaryPanel.Bill | src/components/report/DetailsModal/SummaryPanel.tsx:66 | "" exactly when `billRaw` is all digits, else `billRaw` |
| SummaryPanel.MissingBillShowsDash | src/components/report/DetailsModal/SummaryPanel.tsx:61-66 | a missing billing name shows "-" |
| SummaryPanel.ContractorLine | src/components/report/DetailsModal/SummaryPanel.tsx:67 | the bill label and bill follow the contractor exactly when the bill is non-empty |
| SummaryPanel.RepairLine | src/components/report/DetailsModal/SummaryPanel.tsx:70 | the repair line is `fmt(r_repair_list)` |
| WorkReportPanel.Stamp | src/components/report/DetailsModal/WorkReportPanel.tsx:32-33 | a missing or empty `createdAt` counts as 0; otherwise the parsed time, or NaN |
| WorkReportPanel.BeforeCases | src/components/report/DetailsModal/WorkReportPanel.tsx:31-39 | a NaN time orders nothing; differing times decide, newer first; equal times fall to numeric ids when both are numbers, else to the reversed string order |
| WorkReportPanel.BeforeNumeric | src/components/report/DetailsModal/WorkReportPanel.tsx:32-37 | with numeric ids: newer time first, then larger id |
| WorkReportPanel.BeforeText | src/components/report/DetailsModal/WorkReportPanel.tsx:32-38 | with non-numeric ids: newer time first, then the later id text |
| WorkReportPanel.NumericOrder | src/components/report/DetailsModal/WorkReportPanel.tsx:31-39 | on items with valid times and numeric ids the comparator is a strict weak order |
| WorkReportPanel.TextOrder | src/components/report/DetailsModal/WorkReportPanel.tsx:31-39 | on items with valid times and non-numeric ids the comparator is a strict weak order |
| WorkReportPanel.SortItems | src/components/report/DetailsModal/WorkReportPanel.tsx:29-41 | the sorted copy is the stable sort of the items, which are not modified |
| WorkReportPanel.SortedPermutation | src/components/report/DetailsModal/WorkReportPanel.tsx:29-31 | the sorted list is a permutation of the items |
| WorkReportPanel.NewestFirstNumeric | src/components/report/DetailsModal/WorkReportPanel.tsx:32-37 | with numeric ids: times descend, and equal times have descending ids |
| WorkReportPanel.NewestFirstText | src/components/report/DetailsModal/WorkReportPanel.tsx:32-38 | with non-numeric ids: times descend, and equal times have descending id texts |
| WorkReportPanel.SameKeyKeepsOrder | src/components/report/DetailsModal/WorkReportPanel.tsx:31 | items tied on time and id keep their input order |
| WorkReportPanel.MixedIdsCycle | src/components/report/DetailsModal/WorkReportPanel.tsx:36-38 | ids "10", "2" and "1a" at one time are ordered in a cycle: the comparator orders nothing consistently once numeric and other ids mix |
| WorkReportPanel.FallbackOf | src/components/report/DetailsModal/WorkReportPanel.tsx:26 | the trimmed report, or "-" when that is empty; never "" |
| WorkReportPanel.PanelBody | src/components/report/DetailsModal/WorkReportPanel.tsx:43-73 | the sorted items when there are any, else the fallback text |
| WorkReportPanel.FallbackTrimmed | src/components/report/DetailsModal/WorkReportPanel.tsx:26 | the fallback text has nothing to trim |
| WorkReportPanel.FmtDateTime | src/components/report/DetailsModal/WorkReportPanel.tsx:16-23 | "" without a value, the value itself when it does not parse, the date and time otherwise |

## Left out

- Rendering and layout: the JSX of every component, the navigation bar, the overlay, the skeleton cards and the tables.
- Numbers are integers. Fractions, `Infinity` and precision beyond 2^53 are not modelled. `Number` and `parseInt` accept the decimal integer forms only, with NaN for the rest. Fractional ids and sort values are left out.
- Strings are sequences of Unicode scalar values. JavaScript's UTF-16 slicing is not modelled, and `toLowerCase` maps ASCII letters only.
- `localeCompare` is taken to be code-point order, so Thai collation is not modelled.
- VehicleApiClient.BuiltUrl, VehicleApiClient.BuildUrl: `new URL` throwing on a malformed base is not modelled. Every base gives a URL.
- There is no percent-encoding in URLs. A base or path that itself carries a query is not parsed by `URL`.
- `Object.entries` order is the order of the entry sequence. `JSON.parse` keeps one property per name, holding the last value, so a `JObj` with a repeated name has no JavaScript counterpart: the model's field reads would take the first occurrence, and `ReportShaping.Values` and `CoerceRows` would return both values. The parse oracle is taken to give objects with distinct names.
- Date parsing, `getTime`, `getFullYear`/`getMonth`/`getDate` and the Thai-locale formatting are oracles. The hour-minute format of the work reports is a separate oracle from the hour-minute-second one.
- Timing:
  - the 250 ms debounces;
  - the 20 s timeout and the forwarding of an outer abort signal inside `fetchJSON`;
  - interleavings other than a response settling after a later load has begun;
  - React's stale-closure `loading` value.

  `loading` is a plain field.
- ReportLoader.ReportPage.Complete: a controller aborted while the request is in flight is modelled as the whole request rejecting with an AbortError. A load that a later load supersedes still ends with `loading` false, as the `finally` does.
- ReportLoader: the `useCache` option is a parameter, but every caller passes the default (true).
- The fallback branch of `loadByFilters` (src/pages/ReportPage.tsx:383-398) cannot run, because every filter has one of the four modes. No member models it, and the drawer never sets the loose `technician` field.
- ReportFilter: a non-string `r_dt_rec` is read as missing. The source would throw on its `replace`.
- VehiclePicker.Mapped: reading a field of a null row throws in the source. The model reads every field of a non-object row as undefined.
- ReportFilter.Keep, ReportFilter.JobParts and ReportFilter.JobExpenses: a null element of the rows, parts or expenses throws in the source (`row.r_job_num` at src/pages/ReportPage.tsx:418, `p.up_job_id` at src/pages/ReportPage.tsx:505). The model reads every field of a non-object element as undefined.
- WorkReportPanel.NewestFirstNumeric, WorkReportPanel.NewestFirstText: the order is proved only when all ids are numeric or all are not. Mixing the two kinds makes the comparator inconsistent (WorkReportPanel.MixedIdsCycle), and the order of the result then depends on the sort's algorithm.
- WorkReportPanel: items whose `createdAt` does not parse compare equal to everything, and no order is claimed for them.
- VehiclePicker: the endpoint is fixed when the picker is constructed, from the two settings, as the module constants of the source are.
- The console logging of picker errors is not modelled. Keyboard handling, focus and touch detection are left out, as are the pick callbacks.
- `src/api.ts` and the components outside the data layer (RepairCard, PartsTable, ExpensesTable, DetailsModal) are not part of this model.
- The page title (`titleDate`) and the skeleton condition are rendering decisions and are not modelled.
