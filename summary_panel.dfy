/** src/components/report/DetailsModal/SummaryPanel.tsx: the six lines of the
    job summary. Several lines are fixed slots joined by two spaces, so that a
    blank value still holds its place. Dates are formatted through the
    oracles `newDate` and `dateTimeText` (the Thai date, a space, the time). */
module SummaryPanel {
  import opened Wrappers
  import opened JsStrings
  import opened JsValues
  import opened DateTime
  import opened RepairUtils
  import opened RepairTypes

  /** The separator between slots. */
  const SlotGap := "  "

  /** Slot i: the trimmed value, " " when it is missing or blank. */
  function Slot(slots: seq<Option<string>>, i: nat): (r: string)
    ensures r != ""
    ensures i < |slots| && slots[i].Some? && Trim(slots[i].value) != "" ==> r == Trim(slots[i].value)
    ensures (i >= |slots| || slots[i].None? || Trim(slots[i].value) == "") ==> r == " "
  {
    var v := Trim(if i < |slots| then slots[i].GetOr("") else "");
    if v != "" then v else " "
  }

  /** The first n slots. */
  function Slots(slots: seq<Option<string>>, n: nat): (r: seq<string>)
    ensures |r| == n
    ensures forall i :: 0 <= i < n ==> r[i] == Slot(slots, i)
  {
    seq(n, i requires 0 <= i < n => Slot(slots, i))
  }

  /** The text `fixedSlots(slots, n)` returns. */
  function SlotsText(slots: seq<Option<string>>, n: nat): string {
    Join(Slots(slots, n), SlotGap)
  }

  /** `fixedSlots(slots, n)`: one slot per index below n, pushed in turn,
      then joined by two spaces. */
  method FixedSlots(slots: seq<Option<string>>, n: nat) returns (r: string)
    ensures r == SlotsText(slots, n)
  {
    var out: seq<string> := [];
    for i := 0 to n
      invariant out == Slots(slots, i)
    {
      var v := Trim(if i < |slots| then slots[i].GetOr("") else "");
      out := out + [if v != "" then v else " "];
    }
    r := Join(out, SlotGap);
  }

  /** Slots past the n-th make no difference. */
  lemma ExtraSlotsIgnored(slots: seq<Option<string>>, extra: seq<Option<string>>, n: nat)
    requires n <= |slots|
    ensures SlotsText(slots + extra, n) == SlotsText(slots, n)
  {
    assert Slots(slots + extra, n) == Slots(slots, n);
  }

  /** Two pieces joined by the gap. */
  lemma {:induction false} JoinTwo(a: string, b: string)
    ensures Join([a, b], SlotGap) == a + SlotGap + b
  {
    assert [a, b][1..] == [b];
  }

  /** Two slots are the two values (or " ") with two spaces between. */
  lemma TwoSlots(slots: seq<Option<string>>)
    ensures SlotsText(slots, 2) == Slot(slots, 0) + SlotGap + Slot(slots, 1)
  {
    var a, b := Slot(slots, 0), Slot(slots, 1);
    assert Slots(slots, 2) == [a, b];
    JoinTwo(a, b);
  }

  /** `fmt(v)` with its default fallback "-". */
  function Shown(v: Option<Json>): (r: string)
    ensures r != ""
  {
    FmtNonEmpty(v, "-");
    Fmt(v, "-")
  }

  // ----- The lines -----

  /** `thDateTime(iso)`: "" for a blank or zero date; the raw text through
      `fmt` when it does not parse; the date and time otherwise. */
  function ThDateTime(iso: Option<Json>, newDate: DateParser, dateTimeText: Date -> string): (r: string)
    ensures CleanZeroLike(iso) == "" ==> r == ""
    ensures CleanZeroLike(iso) != "" && newDate(CleanZeroLike(iso)) == None ==>
      r == FmtText(CleanZeroLike(iso), "-")
    ensures CleanZeroLike(iso) != "" && newDate(CleanZeroLike(iso)).Some? ==>
      r == dateTimeText(newDate(CleanZeroLike(iso)).value)
  {
    var raw := CleanZeroLike(iso);
    if raw == "" then ""
    else match newDate(raw)
      case None => Fmt(Str(raw), "-")
      case Some(d) => dateTimeText(d)
  }

  /** The order slot: the order number when it is given and not 0, else " ". */
  function OrderText(order: Option<int>): (r: string)
    ensures order.Some? && order.value != 0 ==> r == IntToString(order.value)
    ensures order.None? || order.value == 0 ==> r == " "
  {
    if order.Some? && order.value != 0 then IntToString(order.value) else " "
  }

  /** The job slot: `job / job`, where job is `fmt(r_job_num)`; as `fmt`
      never yields "", the " " alternative is never taken. */
  function JobText(row: Option<Json>): (r: string)
  {
    var job := Shown(Field(row, "r_job_num"));
    if job != "" then job + " / " + job else " "
  }

  lemma JobTextAlwaysPair(row: Option<Json>)
    ensures JobText(row) == Shown(Field(row, "r_job_num")) + " / " + Shown(Field(row, "r_job_num"))
  {
  }

  /** The order line. */
  function OrderLine(row: Option<Json>, order: Option<int>): string {
    SlotsText([Some(OrderText(order)), Some(JobText(row))], 2)
  }

  /** The order line is the order slot, two spaces, and the job twice. */
  lemma OrderLineShape(row: Option<Json>, order: Option<int>)
    ensures OrderLine(row, order) == OrderText(order) + SlotGap + Slot([Some(JobText(row))], 0)
  {
    var slots := [Some(OrderText(order)), Some(JobText(row))];
    TwoSlots(slots);
    assert Slot(slots, 0) == OrderText(order) by {
      if OrderText(order) != " " {
        TrimOfIntToString(order.value);
      }
    }
  }

  /** The open/close line: the open date (or " "), " - ", the close text. */
  function OpenCloseLine(row: Option<Json>, newDate: DateParser, dateTimeText: Date -> string): (r: string)
  {
    OpenSlot(row, newDate, dateTimeText) + " - " + CloseText(row, newDate, dateTimeText)
  }

  /** The open date, or " " when there is none. */
  function OpenSlot(row: Option<Json>, newDate: DateParser, dateTimeText: Date -> string): string {
    var openText := ThDateTime(Field(row, "r_dt_rec"), newDate, dateTimeText);
    if openText != "" then openText else " "
  }

  /** A job still open reads "… - Working...". */
  lemma OpenJobLine(row: Option<Json>, newDate: DateParser, dateTimeText: Date -> string)
    requires Normalize(Field(row, "r_close_dt")) == ""
    ensures EndsWith(OpenCloseLine(row, newDate, dateTimeText), " - Working...")
  {
    OpenJobWorking(row, newDate, dateTimeText);
    EndsWithWorking(OpenSlot(row, newDate, dateTimeText), CloseText(row, newDate, dateTimeText));
  }

  lemma OpenJobWorking(row: Option<Json>, newDate: DateParser, dateTimeText: Date -> string)
    requires Normalize(Field(row, "r_close_dt")) == ""
    ensures CloseText(row, newDate, dateTimeText) == "Working..."
  {
  }

  lemma EndsWithWorking(head: string, close: string)
    requires close == "Working..."
    ensures EndsWith(head + " - " + close, " - Working...")
  {
    assert (head + " - " + close)[|head|..] == " - Working...";
  }

  /** The vehicle line: name (zero-cleaned), plate and chassis. */
  function VehicleLine(row: Option<Json>): string {
    SlotsText([Some(Shown(Str(CleanZeroLike(Field(row, "r_v_name"))))),
               Some(Shown(Field(row, "r_v_plate"))),
               Some(Shown(Field(row, "r_v_chassis")))], 3)
  }

  /** A blank or zero name shows as "-". */
  lemma BlankNameShowsDash(row: Option<Json>)
    requires CleanZeroLike(Field(row, "r_v_name")) == ""
    ensures Shown(Str(CleanZeroLike(Field(row, "r_v_name")))) == "-"
  {
  }

  /** The length slot of the brand line: `r_v_metr ?? r_v_len_m ?? ""`,
      trimmed, with the unit, or "" when blank. */
  function LengthText(row: Option<Json>): string {
    var lenRaw := Coalesce(Field(row, "r_v_metr"), Coalesce(Field(row, "r_v_len_m"), Str("")));
    var s := Trim(StringOrEmpty(lenRaw));
    if s != "" then Trim(ToStr(lenRaw.value)) + Metres else ""
  }

  /** The brand line's length is the repair type's vehicle length text. */
  lemma LengthTextIsVehicleLength(row: Option<Json>)
    ensures LengthText(row) == VehicleLengthText(row)
  {
  }

  /** The brand line: brand, model, series (or note) and length. */
  function BrandLine(row: Option<Json>): string {
    SlotsText([Some(Shown(Field(row, "r_v_brand"))),
               Some(Shown(Field(row, "r_v_model"))),
               Some(Shown(OrElse(Field(row, "r_v_series"), Field(row, "r_v_note")))),
               Some(LengthText(row))], 4)
  }

  /** The contractor: `fmt(r_v_company || r_contractor) || " "`. */
  function Contractor(row: Option<Json>): (r: string)
    ensures r == Fmt(OrElse(Field(row, "r_v_company"), Field(row, "r_contractor")), "-")
  {
    var c := Shown(OrElse(Field(row, "r_v_company"), Field(row, "r_contractor")));
    if c != "" then c else " "
  }

  /** `billRaw`: the first non-empty of `fmt(r_inv_com)`, `fmt(r_inv_com_name)`,
      `fmt(r_billing_to)`. */
  function BillRaw(row: Option<Json>): string {
    var a := Shown(Field(row, "r_inv_com"));
    var b := Shown(Field(row, "r_inv_com_name"));
    var c := Shown(Field(row, "r_billing_to"));
    if a != "" then a else if b != "" then b else if c != "" then c else ""
  }

  /** As `fmt` never yields "", only `r_inv_com` is ever read. */
  lemma BillRawIsInvCom(row: Option<Json>)
    ensures BillRaw(row) == Fmt(Field(row, "r_inv_com"), "-")
  {
  }

  /** `bill`: `billRaw`, unless it is all digits, then "". */
  function Bill(row: Option<Json>): (r: string)
    ensures r == "" <==> IsDigits(BillRaw(row))
    ensures r != "" ==> r == BillRaw(row)
  {
    var raw := BillRaw(row);
    if raw != "" && !IsDigits(raw) then raw else ""
  }

  /** A missing billing name shows as "-", so the bill part is shown. */
  lemma MissingBillShowsDash(row: Option<Json>)
    requires Field(row, "r_inv_com") == None
    ensures Bill(row) == "-"
  {
    assert BillRaw(row) == "-";
    assert !IsDigit(BillRaw(row)[0]);
  }

  const BillSeparator := "  /  วางบิล : "

  /** The contractor line: the contractor, then the bill after its label when
      there is one. */
  function ContractorLine(row: Option<Json>): (r: string)
    ensures Bill(row) != "" ==> r == Contractor(row) + BillSeparator + Bill(row)
    ensures Bill(row) == "" ==> r == Contractor(row)
  {
    var bill := Bill(row);
    if bill != "" then Contractor(row) + BillSeparator + bill else Contractor(row)
  }

  /** The repair line: `fmt(r_repair_list) || " "`. */
  function RepairLine(row: Option<Json>): (r: string)
    ensures r == Fmt(Field(row, "r_repair_list"), "-")
  {
    var s := Shown(Field(row, "r_repair_list"));
    if s != "" then s else " "
  }
}
