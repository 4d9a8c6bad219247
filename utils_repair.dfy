/** src/utils/repair.ts: reading the close date of a repair job. */
module RepairUtils {
  import opened Wrappers
  import opened JsStrings
  import opened JsValues
  import opened DateTime

  /** `normalize(v)`: the trimmed string form, "" for null and undefined. */
  function Normalize(v: Option<Json>): (r: string)
    ensures Nullish(v) ==> r == ""
    ensures v.Some? && v.value.JStr? ==> r == Trim(v.value.s)
    ensures r == [] || (!IsSpace(r[0]) && !IsSpace(r[|r| - 1]))
  {
    Trim(StringOrEmpty(v))
  }

  const ZeroDate := "0000-00-00"
  const ZeroDateTime := "0000-00-00 00:00:00"

  /** The alternatives of the not-finished pattern before its trailing `\s*`:
      empty, a zero date with an optional zero time, "working..." in any
      letter case, or "-". */
  predicate NotFinishedStem(t: string): (b: bool)
    ensures b ==> |t| <= |ZeroDateTime|
    ensures b ==> t == [] || !IsSpace(t[|t| - 1])
  {
    if ToLower(t) == "working..." then
      LowerWorkingEnd(t);
      true
    else
      StemEndsNotSpace();
      t == "" || t == ZeroDate || t == ZeroDateTime || t == "-"
  }

  /** A text that lower-cases to "working..." ends in a dot. */
  lemma LowerWorkingEnd(t: string)
    requires ToLower(t) == "working..."
    ensures |t| == 10 && !IsSpace(t[|t| - 1])
  {
    assert |t| == 10;
    LowerDot(t[9], ToLower(t)[9]);
  }

  /** Only a dot lower-cases to a dot. */
  lemma LowerDot(c: char, d: char)
    requires d == LowerChar(c) && d == '.'
    ensures c == '.' && !IsSpace(c)
  {
  }

  /** `NOT_FINISHED_RE.test(s)`: one of the stems followed by white space only.
      A text that does not end in white space is not-finished exactly when it
      is a stem, and the empty text is. */
  predicate NotFinished(s: string): (b: bool)
    ensures s == [] || !IsSpace(s[|s| - 1]) ==> (b <==> NotFinishedStem(s))
  {
    NotFinishedStem(TrimEnd(s))
  }

  /** The last characters of the stems are not white space. */
  lemma StemEndsNotSpace()
    ensures !IsSpace('.') && !IsSpace('0') && !IsSpace('-')
  {
  }

  /** The pattern as a regular expression reads: some prefix of s is a stem and
      the rest of s is white space. */
  lemma NotFinishedMeaning(s: string)
    ensures NotFinished(s) <==>
      (exists k :: 0 <= k <= |s| && NotFinishedStem(s[..k]) && AllSpace(s[k..]))
  {
    var t := TrimEnd(s);
    if NotFinished(s) {
      assert s[..|t|] == t;
    }
    forall k | 0 <= k <= |s| && NotFinishedStem(s[..k]) && AllSpace(s[k..])
      ensures NotFinished(s)
    {
      StemThenSpace(s, k);
    }
  }

  /** A stem followed by white space is not-finished. */
  lemma StemThenSpace(s: string, k: nat)
    requires k <= |s| && NotFinishedStem(s[..k]) && AllSpace(s[k..])
    ensures NotFinished(s)
  {
    SplitAt(s, k);
    TrimEndAppendSpace(s[..k], s[k..]);
    assert NotFinished(s[..k]);
  }

  lemma SplitAt(s: string, k: nat)
    requires k <= |s|
    ensures s == s[..k] + s[k..]
  {
  }

  /** `isClosedByCloseDt(row)`: the trimmed `r_close_dt` is neither empty nor
      not-finished, and it parses as a date. The emptiness test is subsumed:
      the empty text is not-finished. */
  predicate IsClosedByCloseDt(row: Option<Json>, newDate: DateParser): (b: bool)
    ensures b <==> (!NotFinished(Normalize(Field(row, "r_close_dt")))
      && newDate(Normalize(Field(row, "r_close_dt"))).Some?)
  {
    var raw := Normalize(Field(row, "r_close_dt"));
    raw != "" && !NotFinished(raw) && newDate(raw).Some?
  }

  /** `closeTextTH(row)`: "Working..." exactly when the not-finished guard
      fires, the raw text when it does not parse, the Thai date and time
      otherwise. */
  function CloseText(row: Option<Json>, newDate: DateParser, dateTimeText: Date -> string): (r: string)
    ensures var raw := Normalize(Field(row, "r_close_dt"));
      && (raw == "" || NotFinished(raw) ==> r == "Working...")
      && (raw != "" && !NotFinished(raw) && newDate(raw) == None ==> r == raw)
      && (raw != "" && !NotFinished(raw) && newDate(raw).Some? ==> r == dateTimeText(newDate(raw).value))
  {
    var raw := Normalize(Field(row, "r_close_dt"));
    if raw == "" || NotFinished(raw) then "Working..."
    else match newDate(raw)
      case None => raw
      case Some(d) => dateTimeText(d)
  }

  /** A closed job's text is the formatted date. */
  lemma ClosedShowsDate(row: Option<Json>, newDate: DateParser, dateTimeText: Date -> string)
    requires IsClosedByCloseDt(row, newDate)
    ensures CloseText(row, newDate, dateTimeText)
      == dateTimeText(newDate(Normalize(Field(row, "r_close_dt"))).value)
  {
  }

  predicate ZeroLike(s: string) {
    s == "" || s == ZeroDate || s == ZeroDateTime
  }

  /** `cleanZeroLike(v)`: "" for the zero dates, the trimmed value otherwise. */
  function CleanZeroLike(v: Option<Json>): (r: string)
    ensures r == "" <==> ZeroLike(Normalize(v))
    ensures r != "" ==> r == Normalize(v)
    ensures r == [] || (!IsSpace(r[0]) && !IsSpace(r[|r| - 1]))
  {
    var s := Normalize(v);
    if ZeroLike(s) then "" else s
  }

  /** Cleaning twice is cleaning once. */
  lemma CleanZeroLikeIdempotent(v: Option<Json>)
    ensures CleanZeroLike(Str(CleanZeroLike(v))) == CleanZeroLike(v)
  {
    var r := CleanZeroLike(v);
    assert StringOrEmpty(Str(r)) == r;
    TrimOfTrimmed(r);
    assert Normalize(Str(r)) == r;
    assert r != "" ==> !ZeroLike(r);
  }
}
