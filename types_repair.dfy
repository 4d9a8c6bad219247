/** src/types/repair.ts: the record shapes of repair jobs, used parts and
    other costs, and the two helpers defined beside them. A repair row is the
    JSON object the export endpoint returns; its fields are read by name. */
module RepairTypes {
  import opened Wrappers
  import opened JsStrings
  import opened JsValues

  /** A used part as the details modal shows it. */
  datatype PartRow = PartRow(
    id: string, createdAt: Option<Json>, partId: string, partCode: string,
    partName: string, lotId: string, qty: Num, unit: string)

  /** Another cost of a job as the details modal shows it. */
  datatype ExpenseRow = ExpenseRow(
    id: string, createdAt: Option<Json>, name: string, qty: Num, unit: string)

  /** `isClosed(row)`: the job's `r_close` is the number 1 or the string "1";
      the row's own truthiness test adds nothing, since only an object has
      fields. */
  predicate IsClosed(row: Option<Json>): (b: bool)
    ensures b <==> Field(row, "r_close") == Number(1) || Field(row, "r_close") == Str("1")
  {
    Truthy(row) &&
    match Field(row, "r_close")
    case Some(JNum(n)) => n == 1
    case Some(JStr(s)) => s == "1"
    case _ => false
  }

  lemma IsClosedCases(row: Option<Json>)
    ensures row == None ==> !IsClosed(row)
    ensures Truthy(row) && Field(row, "r_close").Some? && Field(row, "r_close").value.JNum? ==>
      (IsClosed(row) <==> Field(row, "r_close").value.n == 1)
    ensures Truthy(row) && Field(row, "r_close").Some? && Field(row, "r_close").value.JStr? ==>
      (IsClosed(row) <==> Field(row, "r_close").value.s == "1")
    ensures Field(row, "r_close") == Str("true") || Field(row, "r_close") == Str("01") ==> !IsClosed(row)
  {
  }

  /** The length unit appended to a vehicle length. */
  const Metres := " เมตร"

  /** `vehicleLengthText(row)`: `r_v_metr`, or `r_v_len_m` when that is null or
      undefined, trimmed, with the unit appended; "" when it trims to "". */
  function VehicleLengthText(row: Option<Json>): (r: string)
    ensures var raw := Coalesce(Field(row, "r_v_metr"), Field(row, "r_v_len_m"));
      var s := Trim(StringOrEmpty(raw));
      && (s == "" ==> r == "")
      && (s != "" ==> r == s + Metres)
  {
    var raw := Coalesce(Field(row, "r_v_metr"), Coalesce(Field(row, "r_v_len_m"), Str("")));
    var s := Trim(ToStr(Coalesce(raw, Str("")).value));
    if s != "" then s + Metres else ""
  }

  /** `r_v_metr` wins whenever it is present, even as the empty string. */
  lemma VehicleLengthPrefersMetr(row: Option<Json>)
    requires Field(row, "r_v_metr") == Str("")
    ensures VehicleLengthText(row) == ""
  {
  }
}
