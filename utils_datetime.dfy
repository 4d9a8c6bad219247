/** src/utils/datetime.ts: date parsing, the (date, time) split shown on
    cards, `isSameDay`, and the `fmt` fallback formatter. `new Date(s)` and the
    Thai-locale formatting are oracles. */
module DateTime {
  import opened Wrappers
  import opened JsStrings
  import opened JsValues

  /** A valid `Date`: its time value and its local calendar day. */
  datatype Date = Date(time: int, year: int, month: int, day: int)

  /** `new Date(s)`, None when the time value is NaN. */
  type DateParser = string -> Option<Date>

  /** `s.replace(" ", "T")`: only the first space is replaced. */
  function ReplaceFirstSpace(s: string): (r: string)
    ensures |r| == |s|
    ensures ' ' !in s ==> r == s
  {
    if s == [] then ""
    else if s[0] == ' ' then "T" + s[1..]
    else [s[0]] + ReplaceFirstSpace(s[1..])
  }

  /** `parseDate(s)`: no date for a missing or empty string, otherwise the
      parse of s with its first space turned into "T". */
  function ParseDate(s: Option<string>, newDate: DateParser): (r: Option<Date>)
    ensures s == None || s == Some("") ==> r == None
    ensures s.Some? && s.value != "" ==> r == newDate(ReplaceFirstSpace(s.value))
  {
    match s
    case None => None
    case Some(t) => if t == "" then None else newDate(ReplaceFirstSpace(t))
  }

  datatype DateTimeText = DateTimeText(date: string, time: string)

  /** `toDateTime(s)`: dashes for a missing value, the raw text and a dash for
      one that does not parse, the Thai-locale date and time otherwise. */
  function ToDateTime(s: Option<string>, newDate: DateParser,
                      dateText: Date -> string, timeText: Date -> string): (r: DateTimeText)
    ensures s == None || s == Some("") ==> r == DateTimeText("-", "-")
    ensures s.Some? && s.value != "" && ParseDate(s, newDate) == None ==> r == DateTimeText(s.value, "-")
    ensures s.Some? && s.value != "" && ParseDate(s, newDate).Some? ==>
      r == DateTimeText(dateText(ParseDate(s, newDate).value), timeText(ParseDate(s, newDate).value))
  {
    if s == None || s == Some("") then DateTimeText("-", "-")
    else
      match ParseDate(s, newDate)
      case None => DateTimeText(s.value, "-")
      case Some(d) => DateTimeText(dateText(d), timeText(d))
  }

  /** `isSameDay(a, b)`: same year, month and day of the month. */
  predicate IsSameDay(a: Date, b: Date) {
    a.year == b.year && a.month == b.month && a.day == b.day
  }

  lemma IsSameDayEquivalence(a: Date, b: Date, c: Date)
    ensures IsSameDay(a, a)
    ensures IsSameDay(a, b) == IsSameDay(b, a)
    ensures IsSameDay(a, b) && IsSameDay(b, c) ==> IsSameDay(a, c)
  {
  }

  /** `fmt(v, fallback)`: the fallback for null, undefined, the number 0 and
      strings that trim to "" or "0"; otherwise the (trimmed) string form. */
  function Fmt(v: Option<Json>, fallback: string): (r: string)
    ensures Nullish(v) ==> r == fallback
    ensures v == Number(0) ==> r == fallback
    ensures v.Some? && v.value.JNum? && v.value.n != 0 ==> r == IntToString(v.value.n)
    ensures v.Some? && v.value.JStr? ==> r == FmtText(v.value.s, fallback)
  {
    if Nullish(v) then fallback
    else if v.value.JNum? then (if v.value.n == 0 then fallback else IntToString(v.value.n))
    else FmtText(ToStr(v.value), fallback)
  }

  /** The string branch of `fmt`. */
  function FmtText(t: string, fallback: string): (r: string)
    ensures Trim(t) in {"", "0"} ==> r == fallback
    ensures Trim(t) !in {"", "0"} ==> r == Trim(t)
  {
    var s := Trim(t);
    if s == "" || s == "0" then fallback else s
  }

  /** With a non-empty fallback `fmt` never yields the empty string. */
  lemma FmtNonEmpty(v: Option<Json>, fallback: string)
    requires fallback != ""
    ensures Fmt(v, fallback) != ""
  {
  }
}
