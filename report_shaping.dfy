/** The response shaping of src/pages/ReportPage.tsx: turning whatever the
    export endpoint sends for a table into a list of rows, the pending test,
    and the mapping of part and cost rows for the details modal. */
module ReportShaping {
  import opened Wrappers
  import opened JsStrings
  import opened JsValues
  import opened SeqUtil
  import opened StableSort
  import opened RepairUtils
  import opened RepairTypes

  /** Every key of the object is a string of decimal digits. */
  predicate DigitKeyed(fields: seq<(string, Json)>) {
    |fields| > 0 && forall i :: 0 <= i < |fields| ==> IsDigits(fields[i].0)
  }

  /** `+k` for a key of digits (0 for any other key, which never occurs here). */
  function KeyNumber(k: string): nat {
    if forall i :: 0 <= i < |k| ==> IsDigit(k[i]) then DigitsValue(k) else 0
  }

  /** The comparator `(a, b) => +a - +b` on object fields. */
  function KeyBefore(): ((string, Json), (string, Json)) -> bool {
    (a: (string, Json), b: (string, Json)) => KeyNumber(a.0) < KeyNumber(b.0)
  }

  /** The fields of a digit-keyed object in ascending key order. */
  function ByKey(fields: seq<(string, Json)>): seq<(string, Json)> {
    Sort(fields, KeyBefore())
  }

  function Values(fields: seq<(string, Json)>): (r: seq<Json>)
    ensures |r| == |fields|
    ensures forall i :: 0 <= i < |fields| ==> r[i] == fields[i].1
  {
    Map(fields, (f: (string, Json)) => f.1)
  }

  /** `coerceRows(raw)`: [] for a falsy value, an array as it is, the `rows`
      array of a wrapper, the values of a digit-keyed object in ascending key
      order, and [] for anything else. */
  function CoerceRows(raw: Option<Json>): (r: seq<Json>)
    ensures !Truthy(raw) ==> r == []
    ensures raw.Some? && raw.value.JArr? ==> r == raw.value.items
    ensures raw.Some? && raw.value.JObj? && Field(raw, "rows").Some? && Field(raw, "rows").value.JArr? ==>
      r == Field(raw, "rows").value.items
    ensures raw.Some? && raw.value.JObj? && !(Field(raw, "rows").Some? && Field(raw, "rows").value.JArr?) ==>
      r == (if DigitKeyed(raw.value.fields) then Values(ByKey(raw.value.fields)) else [])
    ensures raw.Some? && !raw.value.JArr? && !raw.value.JObj? ==> r == []
  {
    if !Truthy(raw) then []
    else match raw.value
      case JArr(items) => items
      case JObj(fields) =>
        var rows := Field(raw, "rows");
        if rows.Some? && rows.value.JArr? then rows.value.items
        else if DigitKeyed(fields) then Values(ByKey(fields))
        else []
      case _ => []
  }

  /** The comparator on keys is a strict weak order. */
  lemma KeyBeforeOrder()
    ensures StrictWeakOrder(KeyBefore(), _ => true)
  {
  }

  /** A digit-keyed object has no `rows` field, so it yields the values of its
      fields in ascending key order. */
  lemma CoerceDigitKeyed(fields: seq<(string, Json)>)
    requires DigitKeyed(fields)
    ensures CoerceRows(Some(JObj(fields))) == Values(ByKey(fields))
  {
    forall i | 0 <= i < |fields|
      ensures fields[i].0 != "rows"
    {
      assert IsDigit(fields[i].0[0]);
    }
  }

  /** The fields in key order are the fields of the object, each as often as
      it occurs. */
  lemma ByKeyPermutation(fields: seq<(string, Json)>)
    ensures multiset(ByKey(fields)) == multiset(fields)
  {
    SortPermutation(fields, KeyBefore());
  }

  /** The fields in key order have ascending keys. */
  lemma ByKeySorted(fields: seq<(string, Json)>)
    ensures forall i, j :: 0 <= i < j < |fields| ==>
      KeyNumber(ByKey(fields)[i].0) <= KeyNumber(ByKey(fields)[j].0)
  {
    KeyBeforeOrder();
    SortSorted(fields, KeyBefore(), _ => true);
    assert Sorted(ByKey(fields), KeyBefore());
  }

  /** Arrays are returned unchanged, so coercing a coerced value changes
      nothing. */
  lemma CoerceRowsIdempotent(raw: Option<Json>)
    ensures CoerceRows(Some(JArr(CoerceRows(raw)))) == CoerceRows(raw)
  {
  }

  /** `getTableRows(json, table)`: the rows of `tables[table].rows`, else of
      `tables[table]`, else of `json[table]`, taking the first that is truthy;
      [] when none is. */
  function GetTableRows(json: Option<Json>, table: string): (r: seq<Json>)
    ensures var box := Field(Field(json, "tables"), table);
      && (Truthy(Field(box, "rows")) ==> r == CoerceRows(Field(box, "rows")))
      && (!Truthy(Field(box, "rows")) && Truthy(box) ==> r == CoerceRows(box))
      && (!Truthy(Field(box, "rows")) && !Truthy(box) ==> r == CoerceRows(Field(json, table)))
  {
    var box := Field(Field(json, "tables"), table);
    if Truthy(Field(box, "rows")) then CoerceRows(Field(box, "rows"))
    else if Truthy(box) then CoerceRows(box)
    else if Truthy(Field(json, table)) then CoerceRows(Field(json, table))
    else []
  }

  /** No table anywhere: no rows. */
  lemma GetTableRowsMissing(json: Option<Json>, table: string)
    requires !Truthy(Field(Field(json, "tables"), table)) && !Truthy(Field(json, table))
    ensures GetTableRows(json, table) == []
  {
  }

  /** `isZeroLikeDate(s)`: the trimmed string form is empty or a zero date. */
  predicate IsZeroLikeDate(s: Option<Json>): (b: bool)
    ensures b <==> CleanZeroLike(s) == ""
  {
    ZeroLike(Normalize(s))
  }

  /** `isPending(row)`: the close date (`r_dt_close`, else `r_close_dt`) is
      zero-like, or the trimmed `r_close` flag is "", "0" or "false". A job
      without a flag, or without a close date under either name, is pending. */
  predicate IsPending(row: Option<Json>): (b: bool)
    ensures Nullish(Field(row, "r_close")) ==> b
    ensures Nullish(Field(row, "r_dt_close")) && Nullish(Field(row, "r_close_dt")) ==> b
  {
    var rawClose := Coalesce(Field(row, "r_dt_close"), Coalesce(Field(row, "r_close_dt"), Str("")));
    var closeFlag := Normalize(Field(row, "r_close"));
    IsZeroLikeDate(rawClose) || closeFlag == "" || closeFlag == "0" || closeFlag == "false"
  }

  /** A job is not pending only when both signals say closed: a real close date
      and a set flag. */
  lemma NotPendingMeaning(row: Option<Json>)
    ensures !IsPending(row) <==>
      var date := Coalesce(Field(row, "r_dt_close"), Field(row, "r_close_dt"));
      var flag := Normalize(Field(row, "r_close"));
      && !ZeroLike(Normalize(date))
      && flag != "" && flag != "0" && flag != "false"
  {
  }

  /** The two closed tests disagree: a job whose flag is "1" and that has no
      close date is both closed (by `isClosed`) and pending. */
  lemma PendingThoughClosed()
    ensures var row := Some(JObj([("r_close", JStr("1"))]));
      IsClosed(row) && IsPending(row)
  {
  }

  /** ... and a job with a real close date whose flag is 2 is neither: the
      flag is set for the pending test but is not the closed value 1. */
  lemma FlagTwoNeither(row: Option<Json>, d: string)
    requires Field(row, "r_dt_close") == Str(d) && !ZeroLike(Trim(d))
    requires Field(row, "r_close") == Number(2)
    ensures !IsClosed(row) && !IsPending(row)
  {
    NormalizeTwo();
    assert Normalize(Field(row, "r_close")) == "2";
  }

  lemma NormalizeTwo()
    ensures Normalize(Number(2)) == "2"
  {
    assert StringOrEmpty(Number(2)) == "2" by {
      assert ToStr(JNum(2)) == IntToString(2) == "2";
    }
    assert !IsSpace('2');
    TrimOfTrimmed("2");
  }

  /** `mapPartFromDB(p)`: the id through `String`, the record time as it
      is, the texts through `String(v ?? "")` and the quantity through
      `Number(v ?? 0)`. */
  function MapPart(p: Option<Json>): (r: PartRow)
    ensures r.id == StringOf(Field(p, "up_id"))
    ensures r.createdAt == Field(p, "up_dt_rec")
    ensures r.partId == StringOrEmpty(Field(p, "up_parts_id"))
    ensures r.partCode == StringOrEmpty(Field(p, "up_parts_num"))
    ensures r.partName == StringOrEmpty(Field(p, "up_parts_name"))
    ensures r.lotId == StringOrEmpty(Field(p, "up_lot_id"))
    ensures r.unit == StringOrEmpty(Field(p, "up_unit"))
    ensures Nullish(Field(p, "up_quantity")) ==> r.qty == Int(0)
    ensures !Nullish(Field(p, "up_quantity")) ==> r.qty == ToNumber(Field(p, "up_quantity").value)
  {
    PartRow(
      StringOf(Field(p, "up_id")),
      Field(p, "up_dt_rec"),
      StringOrEmpty(Field(p, "up_parts_id")),
      StringOrEmpty(Field(p, "up_parts_num")),
      StringOrEmpty(Field(p, "up_parts_name")),
      StringOrEmpty(Field(p, "up_lot_id")),
      NumberOf(Coalesce(Field(p, "up_quantity"), Number(0))),
      StringOrEmpty(Field(p, "up_unit")))
  }

  /** `mapExpenseFromDB(x)`, by the same rules. */
  function MapExpense(x: Option<Json>): (r: ExpenseRow)
    ensures r.id == StringOf(Field(x, "oc_id"))
    ensures r.createdAt == Field(x, "oc_dt_rec")
    ensures r.name == StringOrEmpty(Field(x, "oc_listname"))
    ensures r.unit == StringOrEmpty(Field(x, "oc_unit"))
    ensures Nullish(Field(x, "oc_quantity")) ==> r.qty == Int(0)
    ensures !Nullish(Field(x, "oc_quantity")) ==> r.qty == ToNumber(Field(x, "oc_quantity").value)
  {
    ExpenseRow(
      StringOf(Field(x, "oc_id")),
      Field(x, "oc_dt_rec"),
      StringOrEmpty(Field(x, "oc_listname")),
      NumberOf(Coalesce(Field(x, "oc_quantity"), Number(0))),
      StringOrEmpty(Field(x, "oc_unit")))
  }

  /** A quantity that is not numeric text is NaN, not 0: `??` only replaces
      null and undefined. */
  lemma QuantityNotNumber()
    ensures MapPart(Some(JObj([("up_quantity", JStr("abc"))]))).qty == NaN
    ensures MapExpense(Some(JObj([("oc_quantity", JStr("abc"))]))).qty == NaN
  {
    TextNotNumber();
    assert Field(Some(JObj([("up_quantity", JStr("abc"))])), "up_quantity") == Some(JStr("abc"));
    assert Field(Some(JObj([("oc_quantity", JStr("abc"))])), "oc_quantity") == Some(JStr("abc"));
  }

  lemma TextNotNumber()
    ensures ToNumber(JStr("abc")) == NaN
  {
    assert ToStr(JStr("abc")) == "abc";
    assert Trim("abc") == "abc" by {
      TrimOfTrimmed("abc");
    }
    assert !IsDigit('a');
  }


  /** A part row without an id shows the id "undefined". */
  lemma MissingPartId()
    ensures MapPart(Some(JObj([]))).id == "undefined"
    ensures MapPart(Some(JObj([]))).partCode == ""
  {
  }
}
