/** The client-side memos of src/pages/ReportPage.tsx: `filtered`, the rows
    of the loaded items the page lists for the search text and the filter,
    and `partsForSelected`/`expsForSelected`, the parts and expenses of the
    selected job. All three are order-keeping filters of what was loaded. */
module ReportFilter {
  import opened Wrappers
  import opened JsStrings
  import opened JsValues
  import opened SeqUtil
  import opened DateTime
  import opened FilterDrawer
  import opened RepairTypes
  import opened ReportShaping

  /** `String(row[k] || "").toLowerCase()`. */
  function LowerText(row: Json, k: string): string {
    ToLower(StringOf(OrElse(Field(Some(row), k), Str(""))))
  }

  /** The searched fields, each lower-cased when truthy and "" otherwise; the
      id always takes part as `String(row.r_id)`. */
  function HayFields(row: Json): (r: seq<string>)
    ensures |r| == 8
  {
    var v := Some(row);
    var fields := [Field(v, "r_job_num"), Field(v, "r_v_plate"), Field(v, "r_v_name"),
                   Field(v, "r_v_chassis"), Field(v, "r_repair_list"), Field(v, "r_technician"),
                   Field(v, "r_recorder"), Str(StringOf(Field(v, "r_id")))];
    seq(8, i requires 0 <= i < 8 => if Truthy(fields[i]) then ToLower(StringOf(fields[i])) else "")
  }

  /** The text the keyword is searched in: the fields joined by spaces. */
  function Hay(row: Json): string {
    Join(HayFields(row), " ")
  }

  /** `q.trim().toLowerCase()`. */
  function Keyword(q: string): string {
    ToLower(Trim(q))
  }

  /** The keyword rule: no keyword keeps the row, otherwise the keyword must
      occur in its text. */
  predicate KeywordMatch(row: Json, q: string) {
    Keyword(q) == "" || Contains(Hay(row), Keyword(q))
  }

  /** `row.r_dt_rec` as `parseDate` receives it. */
  function RecText(row: Json): Option<string> {
    match Field(Some(row), "r_dt_rec")
    case Some(JStr(s)) => Some(s)
    case _ => None
  }

  /** The technician rule: a technician text that trims to something must
      occur, lower-cased, in the row's technician. */
  predicate TechMatch(row: Json, tech: Option<string>) {
    tech == None || Trim(tech.value) == "" ||
    Contains(LowerText(row, "r_technician"), ToLower(Trim(tech.value)))
  }

  /** The daily rule: with a day set, the row's record date must parse and be
      on that day. */
  predicate DailyMatch(row: Json, date: Option<string>, newDate: DateParser) {
    date == None || date.value == "" ||
      var d := ParseDate(RecText(row), newDate);
      var target := newDate(date.value + "T00:00:00");
      d.Some? && target.Some? && IsSameDay(d.value, target.value)
  }

  /** `a || b` for optional strings. */
  function Either(a: Option<string>, b: Option<string>): Option<string> {
    if a.Some? && a.value != "" then a else b
  }

  /** The custom rule: with both ends set (each filled from the other), the
      record date must parse and lie in the range; an end that does not parse
      compares false and excludes nothing. */
  predicate CustomMatch(row: Json, from: Option<string>, to: Option<string>, newDate: DateParser) {
    var lo := Either(from, to);
    var hi := Either(to, from);
    !(lo.Some? && lo.value != "" && hi.Some? && hi.value != "") ||
      var d := ParseDate(RecText(row), newDate);
      var s := newDate(lo.value + "T00:00:00");
      var e := newDate(hi.value + "T23:59:59");
      d.Some? && !(s.Some? && d.value.time < s.value.time) && !(e.Some? && d.value.time > e.value.time)
  }

  /** `String(v ?? "").trim().toLowerCase()` of a history parameter. */
  function Param(v: Option<string>): string {
    ToLower(Trim(v.GetOr("")))
  }

  /** The history rule: each non-empty parameter occurs in its column; the
      chassis number falls back to the job number when empty. */
  predicate HistoryMatch(row: Json, carName: Option<string>, plate: Option<string>, vin: Option<string>) {
    var vinSrc := ToLower(StringOf(OrElse(Field(Some(row), "r_v_chassis"),
                                         OrElse(Field(Some(row), "r_job_num"), Str("")))));
    && (Param(carName) == "" || Contains(LowerText(row, "r_v_name"), Param(carName)))
    && (Param(plate) == "" || Contains(LowerText(row, "r_v_plate"), Param(plate)))
    && (Param(vin) == "" || Contains(vinSrc, Param(vin)))
  }

  /** Whether `filtered` keeps a row: the keyword rule, then the rule of the
      filter's mode. `tech` is the loose filter's technician, which the
      drawer never sets. A kept row always matches the keyword; pendingAll
      keeps pending rows only; the technician is checked in the daily and
      custom modes only. */
  predicate Keep(row: Json, q: string, f: Filters, tech: Option<string>, newDate: DateParser): (b: bool)
    ensures b ==> KeywordMatch(row, q)
    ensures b && f.PendingAll? ==> IsPending(Some(row))
    ensures b && (f.Daily? || f.Custom?) ==> TechMatch(row, tech)
  {
    && KeywordMatch(row, q)
    && match f
       case Daily(date) => DailyMatch(row, date, newDate) && TechMatch(row, tech)
       case PendingAll => IsPending(Some(row))
       case History(c, p, v) => HistoryMatch(row, c, p, v)
       case Custom(from, to) => CustomMatch(row, from, to, newDate) && TechMatch(row, tech)
  }

  /** The `filtered` memo: no longer than the items, every row of it kept. */
  function Filtered(items: seq<Json>, q: string, f: Filters, tech: Option<string>,
                    newDate: DateParser): (r: seq<Json>)
    ensures |r| <= |items|
    ensures forall i :: 0 <= i < |r| ==> Keep(r[i], q, f, tech, newDate)
  {
    Filter(items, row => Keep(row, q, f, tech, newDate))
  }

  /** The list is what passes of the items, in their order, each row as often
      as it was loaded. */
  lemma FilteredRows(items: seq<Json>, q: string, f: Filters, tech: Option<string>,
                     newDate: DateParser, row: Json)
    ensures row in Filtered(items, q, f, tech, newDate) <==> row in items && Keep(row, q, f, tech, newDate)
    ensures multiset(Filtered(items, q, f, tech, newDate))[row] ==
      if Keep(row, q, f, tech, newDate) then multiset(items)[row] else 0
  {
    FilterMember(items, row => Keep(row, q, f, tech, newDate), row);
    FilterCount(items, row => Keep(row, q, f, tech, newDate), row);
  }

  /** Filtering keeps order: the list of two batches is the lists of each. */
  lemma FilteredAppend(a: seq<Json>, b: seq<Json>, q: string, f: Filters, tech: Option<string>,
                       newDate: DateParser)
    ensures Filtered(a + b, q, f, tech, newDate) ==
      Filtered(a, q, f, tech, newDate) + Filtered(b, q, f, tech, newDate)
  {
    FilterAppend(a, b, row => Keep(row, q, f, tech, newDate));
  }

  /** A blank search text narrows nothing: only the mode's rule decides. */
  lemma BlankKeyword(row: Json, q: string)
    requires Trim(q) == ""
    ensures KeywordMatch(row, q)
  {
  }

  /** The `if (key)` guard changes nothing: every text includes the empty
      keyword, so the rule is the inclusion test alone. */
  lemma KeywordGuardRedundant(row: Json, q: string)
    ensures KeywordMatch(row, q) <==> Contains(Hay(row), Keyword(q))
  {
    if Keyword(q) == "" {
      ContainsEmpty(Hay(row));
    }
  }

  /** A kept row contains the keyword in its text. */
  lemma KeptHasKeyword(row: Json, q: string, f: Filters, tech: Option<string>, newDate: DateParser)
    requires Keep(row, q, f, tech, newDate) && Keyword(q) != ""
    ensures Contains(Hay(row), Keyword(q))
  {
  }

  /** pendingAll lists exactly the pending rows that match the keyword. */
  lemma PendingAllRows(items: seq<Json>, q: string, tech: Option<string>, newDate: DateParser, row: Json)
    ensures row in Filtered(items, q, PendingAll, tech, newDate) <==>
      row in items && KeywordMatch(row, q) && IsPending(Some(row))
  {
    FilteredRows(items, q, PendingAll, tech, newDate, row);
  }

  /** A technician narrows the daily and custom lists only: with it given,
      a kept row of those modes names that technician; without it, the rest
      of the rules alone decide. */
  lemma TechnicianNarrows(row: Json, q: string, f: Filters, tech: Option<string>, newDate: DateParser)
    ensures (f.Daily? || f.Custom?) && tech.Some? && Trim(tech.value) != "" && Keep(row, q, f, tech, newDate) ==>
      Contains(LowerText(row, "r_technician"), ToLower(Trim(tech.value)))
    ensures Keep(row, q, f, None, newDate) <==>
      && KeywordMatch(row, q)
      && match f
         case Daily(date) => DailyMatch(row, date, newDate)
         case PendingAll => IsPending(Some(row))
         case History(c, p, v) => HistoryMatch(row, c, p, v)
         case Custom(from, to) => CustomMatch(row, from, to, newDate)
    ensures !(f.Daily? || f.Custom?) ==> (Keep(row, q, f, tech, newDate) <==> Keep(row, q, f, None, newDate))
  {
  }

  /** A history row is kept only when each given parameter occurs in its
      column. */
  lemma HistoryKept(row: Json, q: string, c: Option<string>, p: Option<string>, v: Option<string>,
                    tech: Option<string>, newDate: DateParser)
    requires Keep(row, q, History(c, p, v), tech, newDate)
    ensures Param(c) != "" ==> Contains(LowerText(row, "r_v_name"), Param(c))
    ensures Param(p) != "" ==> Contains(LowerText(row, "r_v_plate"), Param(p))
    ensures Param(v) != "" && Truthy(Field(Some(row), "r_v_chassis")) ==>
      Contains(LowerText(row, "r_v_chassis"), Param(v))
  {
  }

  /** A daily filter with a day keeps only rows recorded on that day. */
  lemma DailyKept(row: Json, q: string, day: string, tech: Option<string>, newDate: DateParser)
    requires day != "" && Keep(row, q, Daily(Some(day)), tech, newDate)
    ensures ParseDate(RecText(row), newDate).Some? && newDate(day + "T00:00:00").Some?
    ensures IsSameDay(ParseDate(RecText(row), newDate).value, newDate(day + "T00:00:00").value)
  {
  }

  /** A custom range with one end given is the single day from its start to
      its end. */
  lemma CustomOneEnd(row: Json, day: string, newDate: DateParser)
    requires day != ""
    ensures CustomMatch(row, Some(day), None, newDate) == CustomMatch(row, None, Some(day), newDate)
    ensures CustomMatch(row, Some(day), None, newDate) == CustomMatch(row, Some(day), Some(day), newDate)
  {
  }

  /** `clean(v)`: `String(v ?? "").trim()`. */
  function Clean(v: Option<Json>): string {
    Trim(StringOrEmpty(v))
  }

  /** A part belongs to a job when its job id or its job number matches. */
  predicate PartOf(part: Json, id: string, num: string) {
    Clean(Field(Some(part), "up_job_id")) == id || Clean(Field(Some(part), "up_job_num")) == num
  }

  /** An expense belongs to a job when its job id or reference id matches
      the id, or its job number the number. */
  predicate ExpenseOf(x: Json, id: string, num: string) {
    || Clean(Field(Some(x), "oc_job_id")) == id
    || Clean(Field(Some(x), "oc_ref_id")) == id
    || Clean(Field(Some(x), "oc_job_num")) == num
  }

  /** The trimmed id and job number of the selected job. */
  function JobId(selected: Option<Json>): string {
    Clean(Field(selected, "r_id"))
  }

  function JobNum(selected: Option<Json>): string {
    Clean(Field(selected, "r_job_num"))
  }

  /** The rows of `allParts` that belong to the selected job. */
  function JobParts(selected: Option<Json>, allParts: seq<Json>): seq<Json> {
    if selected == None then []
    else
      Filter(allParts, PartTest(JobId(selected), JobNum(selected)))
  }

  function PartTest(id: string, num: string): Json -> bool {
    p => PartOf(p, id, num)
  }

  function ExpenseTest(id: string, num: string): Json -> bool {
    x => ExpenseOf(x, id, num)
  }

  function JobExpenses(selected: Option<Json>, allExps: seq<Json>): seq<Json> {
    if selected == None then []
    else
      Filter(allExps, ExpenseTest(JobId(selected), JobNum(selected)))
  }

  /** `partsForSelected`: the job's parts, mapped for the modal. */
  function PartsForSelected(selected: Option<Json>, allParts: seq<Json>): (r: seq<PartRow>)
    ensures |r| == |JobParts(selected, allParts)|
    ensures forall i :: 0 <= i < |r| ==> r[i] == MapPart(Some(JobParts(selected, allParts)[i]))
  {
    Map(JobParts(selected, allParts), p => MapPart(Some(p)))
  }

  /** `expsForSelected`: the job's expenses, mapped for the modal. */
  function ExpensesForSelected(selected: Option<Json>, allExps: seq<Json>): (r: seq<ExpenseRow>)
    ensures |r| == |JobExpenses(selected, allExps)|
    ensures forall i :: 0 <= i < |r| ==> r[i] == MapExpense(Some(JobExpenses(selected, allExps)[i]))
  {
    Map(JobExpenses(selected, allExps), x => MapExpense(Some(x)))
  }

  /** A part is listed for the selected job exactly when it matches by
      trimmed id or trimmed job number ... */
  lemma JobPartsMember(selected: Json, allParts: seq<Json>, part: Json)
    ensures part in JobParts(Some(selected), allParts) <==>
      part in allParts && PartOf(part, JobId(Some(selected)), JobNum(Some(selected)))
  {
    FilterMember(allParts, PartTest(JobId(Some(selected)), JobNum(Some(selected))), part);
  }

  /** A selected job without a job number lists every part that has no job
      number either, whatever its job id. */
  lemma BlankJobNumberMatchesBlank(selected: Json, allParts: seq<Json>, part: Json)
    requires Clean(Field(Some(selected), "r_job_num")) == ""
    requires part in allParts && Field(Some(part), "up_job_num") == None
    ensures part in JobParts(Some(selected), allParts)
  {
    JobPartsMember(selected, allParts, part);
  }

  /** ... and then as often as it was loaded. */
  lemma JobPartsCount(selected: Json, allParts: seq<Json>, part: Json)
    ensures multiset(JobParts(Some(selected), allParts))[part] ==
      if PartOf(part, JobId(Some(selected)), JobNum(Some(selected))) then multiset(allParts)[part] else 0
  {
    FilterCount(allParts, PartTest(JobId(Some(selected)), JobNum(Some(selected))), part);
  }

  /** An expense is listed exactly when it matches by trimmed job id,
      reference id or job number ... */
  lemma JobExpensesMember(selected: Json, allExps: seq<Json>, x: Json)
    ensures x in JobExpenses(Some(selected), allExps) <==>
      x in allExps && ExpenseOf(x, JobId(Some(selected)), JobNum(Some(selected)))
  {
    FilterMember(allExps, ExpenseTest(JobId(Some(selected)), JobNum(Some(selected))), x);
  }

  /** ... and then as often as it was loaded. */
  lemma JobExpensesCount(selected: Json, allExps: seq<Json>, x: Json)
    ensures multiset(JobExpenses(Some(selected), allExps))[x] ==
      if ExpenseOf(x, JobId(Some(selected)), JobNum(Some(selected))) then multiset(allExps)[x] else 0
  {
    FilterCount(allExps, ExpenseTest(JobId(Some(selected)), JobNum(Some(selected))), x);
  }

  /** The join keeps the order of the loaded rows. */
  lemma JobPartsAppend(selected: Json, a: seq<Json>, b: seq<Json>)
    ensures JobParts(Some(selected), a + b) == JobParts(Some(selected), a) + JobParts(Some(selected), b)
  {
    var id, num := JobId(Some(selected)), JobNum(Some(selected));
    FilterAppend(a, b, PartTest(id, num));
  }

  lemma JobExpensesAppend(selected: Json, a: seq<Json>, b: seq<Json>)
    ensures JobExpenses(Some(selected), a + b) == JobExpenses(Some(selected), a) + JobExpenses(Some(selected), b)
  {
    var id, num := JobId(Some(selected)), JobNum(Some(selected));
    FilterAppend(a, b, ExpenseTest(id, num));
  }
}
