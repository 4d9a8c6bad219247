/** src/components/report/DetailsModal/WorkReportPanel.tsx: the work reports
    of a job, newest first, or the job's own report text when it has none.
    `new Date(s).getTime()` is the oracle `newDate` (None for NaN). */
module WorkReportPanel {
  import opened Wrappers
  import opened JsStrings
  import opened SeqUtil
  import opened StableSort
  import opened DateTime

  /** `PerformItem`. */
  datatype PerformItem = PerformItem(id: string, createdAt: Option<string>, content: string,
                                     technician: Option<string>)

  /** The time an item sorts by: 0 without a `createdAt`, the parsed time
      otherwise; None stands for NaN (a date that does not parse). */
  function Stamp(item: PerformItem, newDate: DateParser): (r: Option<int>)
    ensures item.createdAt.None? || item.createdAt == Some("") ==> r == Some(0)
    ensures item.createdAt.Some? && item.createdAt.value != "" ==>
      r == (if newDate(item.createdAt.value).Some? then Some(newDate(item.createdAt.value).value.time) else None)
  {
    if item.createdAt.None? || item.createdAt.value == "" then Some(0)
    else match newDate(item.createdAt.value)
      case Some(d) => Some(d.time)
      case None => None
  }

  /** `Number(id)`. */
  function IdNumber(item: PerformItem): Num {
    StringToNumber(item.id)
  }

  /** The comparator returns a negative number. A NaN time makes it return
      NaN, which the sort reads as 0; equal times fall back to the ids,
      numerically when both are numbers, else by string comparison, both
      descending. */
  predicate ItemBefore(a: PerformItem, b: PerformItem, newDate: DateParser) {
    var at := Stamp(a, newDate);
    var bt := Stamp(b, newDate);
    if at.None? || bt.None? then false
    else if bt.value != at.value then bt.value - at.value < 0
    else if IdNumber(a).Int? && IdNumber(b).Int? then IdNumber(b).value - IdNumber(a).value < 0
    else Less(b.id, a.id)
  }

  function Before(newDate: DateParser): (PerformItem, PerformItem) -> bool {
    (a: PerformItem, b: PerformItem) => ItemBefore(a, b, newDate)
  }

  /** The comparator's cases, in the terms the panel promises. */
  lemma BeforeCases(a: PerformItem, b: PerformItem, newDate: DateParser)
    ensures Stamp(a, newDate).None? || Stamp(b, newDate).None? ==> !ItemBefore(a, b, newDate)
    ensures Stamp(a, newDate).Some? && Stamp(b, newDate).Some? && Stamp(a, newDate) != Stamp(b, newDate) ==>
      (ItemBefore(a, b, newDate) <==> Stamp(a, newDate).value > Stamp(b, newDate).value)
    ensures Stamp(a, newDate).Some? && Stamp(a, newDate) == Stamp(b, newDate) && IdNumber(a).Int? && IdNumber(b).Int? ==>
      (ItemBefore(a, b, newDate) <==> IdNumber(a).value > IdNumber(b).value)
    ensures Stamp(a, newDate).Some? && Stamp(a, newDate) == Stamp(b, newDate) && !(IdNumber(a).Int? && IdNumber(b).Int?) ==>
      (ItemBefore(a, b, newDate) <==> Less(b.id, a.id))
  {
  }

  /** Items with a valid time and a numeric id. */
  function NumericDom(newDate: DateParser): PerformItem -> bool {
    (x: PerformItem) => Stamp(x, newDate).Some? && IdNumber(x).Int?
  }

  /** Items with a valid time and an id that is not a number. */
  function TextDom(newDate: DateParser): PerformItem -> bool {
    (x: PerformItem) => Stamp(x, newDate).Some? && IdNumber(x).NaN?
  }

  /** Among items with numeric ids, the comparator orders by time, then by id,
      both descending. */
  lemma BeforeNumeric(a: PerformItem, b: PerformItem, newDate: DateParser)
    requires NumericDom(newDate)(a) && NumericDom(newDate)(b)
    ensures Before(newDate)(a, b) <==>
      Stamp(a, newDate).value > Stamp(b, newDate).value ||
      (Stamp(a, newDate) == Stamp(b, newDate) && IdNumber(a).value > IdNumber(b).value)
  {
  }

  /** Among items whose ids are not numbers, it orders by time, then by id
      text, both descending. */
  lemma BeforeText(a: PerformItem, b: PerformItem, newDate: DateParser)
    requires TextDom(newDate)(a) && TextDom(newDate)(b)
    ensures Before(newDate)(a, b) <==>
      Stamp(a, newDate).value > Stamp(b, newDate).value ||
      (Stamp(a, newDate) == Stamp(b, newDate) && Less(b.id, a.id))
  {
  }

  lemma NumericOrder(newDate: DateParser)
    ensures StrictWeakOrder(Before(newDate), NumericDom(newDate))
  {
    forall a, b | NumericDom(newDate)(a) && NumericDom(newDate)(b)
      ensures Before(newDate)(a, b) <==>
        Stamp(a, newDate).value > Stamp(b, newDate).value ||
        (Stamp(a, newDate) == Stamp(b, newDate) && IdNumber(a).value > IdNumber(b).value)
    {
      BeforeNumeric(a, b, newDate);
    }
  }

  lemma TextOrder(newDate: DateParser)
    ensures StrictWeakOrder(Before(newDate), TextDom(newDate))
  {
    var lt, dom := Before(newDate), TextDom(newDate);
    forall a, b | dom(a) && dom(b)
      ensures lt(a, b) <==>
        Stamp(a, newDate).value > Stamp(b, newDate).value ||
        (Stamp(a, newDate) == Stamp(b, newDate) && Less(b.id, a.id))
    {
      BeforeText(a, b, newDate);
    }
    forall a | dom(a)
      ensures !lt(a, a)
    {
      LessIrreflexive(a.id);
    }
    forall a, b, c | dom(a) && dom(b) && dom(c) && lt(a, b) && lt(b, c)
      ensures lt(a, c)
    {
      if Stamp(a, newDate) == Stamp(b, newDate) == Stamp(c, newDate) {
        LessTransitive(c.id, b.id, a.id);
      }
    }
    forall a, b, c | dom(a) && dom(b) && dom(c) && lt(a, c)
      ensures lt(a, b) || lt(b, c)
    {
      if Stamp(a, newDate) == Stamp(b, newDate) == Stamp(c, newDate) && b.id != a.id {
        LessTotal(a.id, b.id);
        if Less(a.id, b.id) {
          LessTransitive(c.id, a.id, b.id);
        }
      }
    }
  }

  /** The sorted copy of the items: `[...items]`, then sorted in place. The
      items themselves are not modified. */
  method SortItems(items: array<PerformItem>, newDate: DateParser) returns (sorted: seq<PerformItem>)
    ensures sorted == Sort(items[..], Before(newDate))
  {
    var arr := new PerformItem[items.Length](i reads items requires 0 <= i < items.Length => items[i]);
    assert arr[..] == items[..];
    InsertionSort(arr, Before(newDate));
    sorted := arr[..];
  }

  /** The sorted list holds the items, each as often as it occurs. */
  lemma SortedPermutation(items: seq<PerformItem>, newDate: DateParser)
    ensures |Sort(items, Before(newDate))| == |items|
    ensures multiset(Sort(items, Before(newDate))) == multiset(items)
  {
    SortPermutation(items, Before(newDate));
  }

  /** a comes no later than b among items with numeric ids: a newer time, or
      the same time and an id at least as large. */
  predicate NumericNoLater(a: PerformItem, b: PerformItem, newDate: DateParser) {
    NumericDom(newDate)(a) && NumericDom(newDate)(b) &&
    (Stamp(a, newDate).value > Stamp(b, newDate).value ||
     (Stamp(a, newDate) == Stamp(b, newDate) && IdNumber(a).value >= IdNumber(b).value))
  }

  /** a comes no later than b among items whose ids are not numbers. */
  predicate TextNoLater(a: PerformItem, b: PerformItem, newDate: DateParser) {
    TextDom(newDate)(a) && TextDom(newDate)(b) &&
    (Stamp(a, newDate).value > Stamp(b, newDate).value ||
     (Stamp(a, newDate) == Stamp(b, newDate) && !Less(a.id, b.id)))
  }

  /** The sorted items lie in the domain the input lies in. */
  lemma SortedIn(items: seq<PerformItem>, newDate: DateParser, dom: PerformItem -> bool)
    requires AllIn(items, dom)
    ensures AllIn(Sort(items, Before(newDate)), dom)
  {
    var s := Sort(items, Before(newDate));
    SortPermutation(items, Before(newDate));
    forall i | 0 <= i < |s|
      ensures dom(s[i])
    {
      assert s[i] in multiset(items);
    }
  }

  /** With valid times and numeric ids, the newest item comes first, and
      items of the same time come by descending id. */
  lemma NewestFirstNumeric(items: seq<PerformItem>, newDate: DateParser)
    requires AllIn(items, NumericDom(newDate))
    ensures forall i, j :: 0 <= i < j < |items| ==>
      NumericNoLater(Sort(items, Before(newDate))[i], Sort(items, Before(newDate))[j], newDate)
  {
    var s := Sort(items, Before(newDate));
    NumericOrder(newDate);
    SortSorted(items, Before(newDate), NumericDom(newDate));
    SortedIn(items, newDate, NumericDom(newDate));
    forall i, j | 0 <= i < j < |items|
      ensures NumericNoLater(s[i], s[j], newDate)
    {
      BeforeNumeric(s[j], s[i], newDate);
    }
  }

  /** With valid times and ids that are not numbers, the newest item comes
      first, and items of the same time come by descending id text. */
  lemma NewestFirstText(items: seq<PerformItem>, newDate: DateParser)
    requires AllIn(items, TextDom(newDate))
    ensures forall i, j :: 0 <= i < j < |items| ==>
      TextNoLater(Sort(items, Before(newDate))[i], Sort(items, Before(newDate))[j], newDate)
  {
    var s := Sort(items, Before(newDate));
    TextOrder(newDate);
    SortSorted(items, Before(newDate), TextDom(newDate));
    SortedIn(items, newDate, TextDom(newDate));
    forall i, j | 0 <= i < j < |items|
      ensures TextNoLater(s[i], s[j], newDate)
    {
      BeforeText(s[j], s[i], newDate);
      if Stamp(s[i], newDate) == Stamp(s[j], newDate) && s[i].id != s[j].id {
        LessTotal(s[i].id, s[j].id);
      }
    }
  }

  /** Items of the same time and id keep their input order. */
  lemma SameKeyKeepsOrder(items: seq<PerformItem>, newDate: DateParser, e: PerformItem)
    requires AllIn(items, NumericDom(newDate)) && NumericDom(newDate)(e)
    ensures Filter(Sort(items, Before(newDate)), y => Tied(Before(newDate), y, e)) ==
      Filter(items, y => Tied(Before(newDate), y, e))
  {
    NumericOrder(newDate);
    SortStable(items, Before(newDate), NumericDom(newDate), e);
  }

  /** Ids of both kinds make the comparator cyclic: among items of the same
      time, "10" comes before "2" (as numbers), "2" before "1a" and "1a"
      before "10" (as text), so no order satisfies it. */
  lemma MixedIdsCycle(newDate: DateParser)
    ensures var a, b, c := PerformItem("10", None, "", None), PerformItem("2", None, "", None),
                           PerformItem("1a", None, "", None);
      ItemBefore(a, b, newDate) && ItemBefore(b, c, newDate) && ItemBefore(c, a, newDate)
  {
    CycleIds();
    CycleTexts();
  }

  lemma CycleIds()
    ensures StringToNumber("10") == Int(10) && StringToNumber("2") == Int(2)
    ensures StringToNumber("1a") == NaN
  {
    TrimOfTrimmed("10");
    TrimOfTrimmed("2");
    TrimOfTrimmed("1a");
    assert !IsDigit("1a"[1]);
    assert "10"[..1] == "1" && "1"[..0] == [] && "2"[..0] == [];
    assert DigitsValue("10") == 10;
  }

  lemma CycleTexts()
    ensures Less("1a", "2") && Less("10", "1a")
  {
  }

  /** What the panel shows: the sorted items, or a text when there are none. */
  datatype Body = ItemList(items: seq<PerformItem>) | FallbackText(text: string)

  /** The text shown without items: the trimmed report, or "-" when that is
      empty. */
  function FallbackOf(report: Option<string>): (r: string)
    ensures r != ""
    ensures Trim(report.GetOr("")) != "" ==> r == Trim(report.GetOr(""))
    ensures Trim(report.GetOr("")) == "" ==> r == "-"
  {
    var t := Trim(report.GetOr(""));
    if t != "" then t else "-"
  }

  function PanelBody(sorted: seq<PerformItem>, report: Option<string>): (r: Body)
    ensures sorted != [] ==> r == ItemList(sorted)
    ensures sorted == [] ==> r == FallbackText(FallbackOf(report))
  {
    if |sorted| > 0 then ItemList(sorted) else FallbackText(FallbackOf(report))
  }

  /** The fallback text has nothing to trim. */
  lemma FallbackTrimmed(report: Option<string>)
    ensures Trim(FallbackOf(report)) == FallbackOf(report)
  {
    TrimIdempotent(report.GetOr(""));
    if FallbackOf(report) == "-" {
      TrimOfTrimmed("-");
    }
  }

  /** `fmtDateTime(v)`: "" without a value, the value itself when it does not
      parse, the date and time (`dateTimeText`) otherwise. */
  function FmtDateTime(v: Option<string>, newDate: DateParser, dateTimeText: Date -> string): (r: string)
    ensures v.None? || v == Some("") ==> r == ""
    ensures v.Some? && v.value != "" && newDate(v.value).None? ==> r == v.value
    ensures v.Some? && v.value != "" && newDate(v.value).Some? ==> r == dateTimeText(newDate(v.value).value)
  {
    if v.None? || v.value == "" then ""
    else match newDate(v.value)
      case None => v.value
      case Some(d) => dateTimeText(d)
  }
}
