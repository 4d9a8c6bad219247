/** src/components/vehicle/VehiclePickerModal.tsx: the vehicle picker. Its
    endpoint is derived once from two settings; a search fetches the vehicle
    list, unwraps the payload, maps every row onto the picker's field names
    through alias lists and sorts the rows by their sort number, then by their
    numeric id. */
module VehiclePicker {
  import opened Wrappers
  import opened JsStrings
  import opened JsValues
  import opened SeqUtil
  import opened StableSort
  import opened Http
  import ReportShaping

  // ----- The endpoint -----

  /** The file name the picker appends to the API root. */
  const SearchFile := "/vehicle_search.php"

  /** `/\.php(\?|$)/i` matches at i: ".php" in any letter case, followed by
      "?" or the end of the text. */
  predicate PhpAt(s: string, i: int)
    requires 0 <= i <= |s| - 4
  {
    s[i] == '.' && LowerChar(s[i + 1]) == 'p' && LowerChar(s[i + 2]) == 'h' &&
    LowerChar(s[i + 3]) == 'p' && (i + 4 == |s| || s[i + 4] == '?')
  }

  /** `isPhpFile`. */
  predicate IsPhpFile(s: string) {
    exists i :: 0 <= i <= |s| - 4 && PhpAt(s, i)
  }

  /** The characters `[^/?#]` excludes. */
  predicate Delimiter(c: char) {
    c == '/' || c == '?' || c == '#'
  }

  /** The characters `.` does not match: the ECMAScript line terminators. */
  predicate LineTerminator(c: char) {
    c == '\n' || c == '\r' || c as int == 0x2028 || c as int == 0x2029
  }

  /** The first delimiter at or after k, or the end of s. */
  function SegmentEnd(s: string, k: nat): (j: nat)
    requires k <= |s|
    ensures k <= j <= |s|
    ensures forall m :: k <= m < j ==> !Delimiter(s[m])
    ensures j == |s| || Delimiter(s[j])
    decreases |s| - k
  {
    if k == |s| || Delimiter(s[k]) then k else SegmentEnd(s, k + 1)
  }

  /** `/\/[^/?#]+(\?.*)?$/` matches at i: a slash, a non-empty segment free
      of delimiters, then either the end or a "?" whose rest holds no line
      terminator. */
  predicate SegmentAt(s: string, i: nat)
    requires i < |s|
  {
    s[i] == '/' &&
    var j := SegmentEnd(s, i + 1);
    j > i + 1 &&
    (j == |s| || (s[j] == '?' && forall m :: j < m < |s| ==> !LineTerminator(s[m])))
  }

  /** The leftmost position at or after k where the pattern matches. */
  function FirstSegment(s: string, k: nat): (r: Option<nat>)
    requires k <= |s|
    ensures r.Some? ==> k <= r.value < |s| && SegmentAt(s, r.value)
    ensures r.Some? ==> forall m :: k <= m < r.value ==> !SegmentAt(s, m)
    ensures r.None? ==> forall m :: k <= m < |s| ==> !SegmentAt(s, m)
    decreases |s| - k
  {
    if k == |s| then None
    else if SegmentAt(s, k) then Some(k)
    else FirstSegment(s, k + 1)
  }

  /** `replace(/\/[^/?#]+(\?.*)?$/, "")`: the text before the leftmost match
      (which always runs to the end), or the text itself when nothing matches. */
  function StripLastSegment(s: string): (r: string)
    ensures |r| <= |s| && r == s[..|r|]
    ensures r != s <==> exists i :: 0 <= i < |s| && SegmentAt(s, i)
  {
    match FirstSegment(s, 0)
    case Some(i) => s[..i]
    case None => s
  }

  /** `replace(/\/+$/, "")`: the text without its trailing slashes. */
  function StripSlashes(s: string): (r: string)
    ensures |r| <= |s| && r == s[..|r|]
    ensures r == [] || r[|r| - 1] != '/'
    ensures forall k :: |r| <= k < |s| ==> s[k] == '/'
  {
    if s != [] && s[|s| - 1] == '/' then StripSlashes(s[..|s| - 1]) else s
  }

  /** `API_ROOT`: a base naming a PHP file loses its last path segment (and
      any query after it); any other base loses its trailing slashes. */
  function ApiRoot(base: string): (r: string)
    ensures IsPhpFile(base) ==> r == StripLastSegment(base)
    ensures !IsPhpFile(base) ==> r == StripSlashes(base)
  {
    if IsPhpFile(base) then StripLastSegment(base) else StripSlashes(base)
  }

  /** A setting read as `(value || "").trim()`. */
  function Setting(env: Option<string>): (r: string)
    ensures env.None? ==> r == ""
    ensures env.Some? ==> r == Trim(env.value)
  {
    Trim(env.GetOr(""))
  }

  /** `VEHICLE_API`: the direct setting when it is set, else the search file
      under the API root, else nothing. */
  function VehicleApi(direct: Option<string>, base: Option<string>): (r: string)
    ensures Setting(direct) != "" ==> r == Setting(direct)
    ensures Setting(direct) == "" && ApiRoot(Setting(base)) != "" ==>
      r == ApiRoot(Setting(base)) + SearchFile
    ensures Setting(direct) == "" && ApiRoot(Setting(base)) == "" ==> r == ""
  {
    var d := Setting(direct);
    var root := ApiRoot(Setting(base));
    if d != "" then d else if root != "" then root + SearchFile else ""
  }

  /** An empty base leaves the endpoint unset unless the direct setting is given. */
  lemma EmptyBase(direct: Option<string>)
    ensures VehicleApi(direct, None) == Setting(direct)
    ensures VehicleApi(direct, Some("")) == Setting(direct)
  {
  }

  /** A base `root/seg.php` (optionally followed by a query) has `seg.php`
      and the query stripped, whatever letter case ".php" is written in, as
      long as the root has no "?" or "#". */
  lemma {:induction false} StripPhpSegment(root: string, seg: string, tail: string)
    requires forall m :: 0 <= m < |root| ==> root[m] != '?' && root[m] != '#'
    requires seg != [] && forall m :: 0 <= m < |seg| ==> !Delimiter(seg[m])
    requires tail == [] || (tail[0] == '?' && forall m :: 0 < m < |tail| ==> !LineTerminator(tail[m]))
    ensures StripLastSegment(root + "/" + seg + tail) == root
  {
    var s := root + "/" + seg + tail;
    var n := |root|;
    assert s[n] == '/';
    forall m | n < m < n + 1 + |seg|
      ensures !Delimiter(s[m])
    {
      assert s[m] == seg[m - n - 1];
    }
    var p := n + 1 + |seg|;
    assert p == |s| || s[p] == tail[0];
    var j := SegmentEnd(s, n + 1);
    assert j == p;
    if tail != [] {
      assert s[j] == tail[0];
      forall m | j < m < |s|
        ensures !LineTerminator(s[m])
      {
        assert s[m] == tail[m - j];
      }
    }
    assert SegmentAt(s, n);
    forall i | 0 <= i < n
      ensures !SegmentAt(s, i)
    {
      if s[i] == '/' {
        var e := SegmentEnd(s, i + 1);
        assert Delimiter(s[n]);
        assert e <= n;
        if e < n {
          assert s[e] == root[e];
        }
      }
    }
    assert FirstSegment(s, 0) == Some(n);
  }

  /** A base naming a PHP file: the endpoint is the search file beside it. */
  lemma PhpEndpoint(base: string, root: string, seg: string, tail: string)
    requires base == root + "/" + seg + tail
    requires Trim(base) == base
    requires root != []
    requires forall m :: 0 <= m < |root| ==> root[m] != '?' && root[m] != '#'
    requires |seg| >= 4 && PhpAt(seg, |seg| - 4)
    requires forall m :: 0 <= m < |seg| ==> !Delimiter(seg[m])
    requires tail == [] || (tail[0] == '?' && forall m :: 0 < m < |tail| ==> !LineTerminator(tail[m]))
    ensures VehicleApi(None, Some(base)) == root + SearchFile
  {
    PhpInBase(base, root, seg, tail);
    StripPhpSegment(root, seg, tail);
    assert ApiRoot(base) == root;
  }

  lemma PhpInBase(base: string, root: string, seg: string, tail: string)
    requires base == root + "/" + seg + tail
    requires |seg| >= 4 && PhpAt(seg, |seg| - 4)
    requires tail == [] || tail[0] == '?'
    ensures IsPhpFile(base)
  {
    var i := |root| + 1 + |seg| - 4;
    assert base[i..i + 4] == seg[|seg| - 4..];
    if tail != [] {
      assert base[i + 4] == tail[0];
    }
    assert PhpAt(base, i);
  }

  /** A base that names no PHP file: the endpoint is the search file under
      the base without its trailing slashes. */
  lemma PlainEndpoint(base: string)
    requires Trim(base) == base
    requires !IsPhpFile(base)
    requires StripSlashes(base) != ""
    ensures VehicleApi(None, Some(base)) == StripSlashes(base) + SearchFile
  {
  }

  // ----- Number and text helpers -----

  /** `String(x ?? "").trim()`. */
  function Trimmed(x: Option<Json>): string {
    Trim(StringOrEmpty(x))
  }

  /** `toNum(x, def)`: `parseInt` of the trimmed string form when it finds a
      number, else the default. */
  function ToNum(x: Option<Json>, def: int): int {
    match ParseInt(Trimmed(x))
    case Some(n) => n
    case None => def
  }

  lemma TrimStartOfTrimmed(t: string)
    requires t == [] || !IsSpace(t[0])
    ensures TrimStart(t) == t
  {
  }

  /** `parseInt` of a text with no leading white space: the run of digits
      at its head, after an optional sign. */
  lemma ParseIntDigits(t: string)
    requires t != [] && IsDigit(t[0])
    ensures ParseInt(t) == Some(DigitsValue(LeadingDigits(t)))
  {
    TrimStartOfTrimmed(t);
  }

  lemma ParseIntMinus(t: string)
    requires t != [] && t[0] == '-' && LeadingDigits(t[1..]) != []
    ensures ParseInt(t) == Some(-(DigitsValue(LeadingDigits(t[1..])) as int))
  {
    TrimStartOfTrimmed(t);
  }

  lemma ParseIntPlus(t: string)
    requires t != [] && t[0] == '+' && LeadingDigits(t[1..]) != []
    ensures ParseInt(t) == Some(DigitsValue(LeadingDigits(t[1..])))
  {
    TrimStartOfTrimmed(t);
  }

  /** `parseInt` of a text with no leading white space is NaN exactly when
      no digit follows the optional sign. */
  lemma ParseIntNone(t: string)
    requires t == [] || !IsSpace(t[0])
    ensures ParseInt(t) == None <==>
      t == [] || (if t[0] == '-' || t[0] == '+' then LeadingDigits(t[1..]) == [] else !IsDigit(t[0]))
  {
    TrimStartOfTrimmed(t);
  }

  /** `toNum` reads the leading base-10 integer of the trimmed string form t,
      and gives the default when there is none. */
  lemma ToNumLeading(x: Option<Json>, def: int, t: string)
    requires t == Trimmed(x)
    ensures t != [] && IsDigit(t[0]) ==> ToNum(x, def) == DigitsValue(LeadingDigits(t))
    ensures t != [] && t[0] == '-' && LeadingDigits(t[1..]) != [] ==>
      ToNum(x, def) == -(DigitsValue(LeadingDigits(t[1..])) as int)
    ensures t != [] && t[0] == '+' && LeadingDigits(t[1..]) != [] ==>
      ToNum(x, def) == DigitsValue(LeadingDigits(t[1..]))
    ensures t == [] || (if t[0] == '-' || t[0] == '+' then LeadingDigits(t[1..]) == [] else !IsDigit(t[0])) ==>
      ToNum(x, def) == def
  {
    ParseIntNone(t);
    if t != [] && IsDigit(t[0]) {
      ParseIntDigits(t);
    } else if t != [] && t[0] == '-' && LeadingDigits(t[1..]) != [] {
      ParseIntMinus(t);
    } else if t != [] && t[0] == '+' && LeadingDigits(t[1..]) != [] {
      ParseIntPlus(t);
    }
  }

  /** A number reads back as itself, whatever the default. */
  lemma {:induction false} ToNumOfNumber(n: int, def: int)
    ensures ToNum(Number(n), def) == n
  {
    TrimOfIntToString(n);
    ParseIntOfIntToString(n);
  }

  /** The values a search box or a date column treats as blank. */
  const ZeroTexts: set<string> := {"", "0000-00-00", "0000-00-00 00:00:00"}

  /** Membership in `ZERO`, which compares by identity: null, undefined and
      the blank strings, but no number. */
  predicate ZeroLike(v: Option<Json>) {
    v == None || v == Some(JNull) || (v.Some? && v.value.JStr? && v.value.s in ZeroTexts)
  }

  /** `fmt(v)`: blank for the zero-like values, the string form otherwise. */
  function Fmt(v: Option<Json>): (r: string)
    ensures ZeroLike(v) ==> r == ""
    ensures !ZeroLike(v) ==> r == StringOf(v)
  {
    if ZeroLike(v) then "" else StringOf(v)
  }

  /** The number 0 is not zero-like: it prints as "0". */
  lemma FmtZeroNumber()
    ensures Fmt(Number(0)) == "0"
  {
  }

  /** `fmtLen(v)`: the trimmed string form. */
  function FmtLen(v: Option<Json>): (r: string)
    ensures r == [] || (!IsSpace(r[0]) && !IsSpace(r[|r| - 1]))
  {
    Trimmed(v)
  }

  /** Formatting a formatted length changes nothing. */
  lemma FmtLenIdempotent(v: Option<Json>)
    ensures FmtLen(Str(FmtLen(v))) == FmtLen(v)
  {
    TrimIdempotent(StringOrEmpty(v));
  }

  /** `fmtDate(v)`: blank for a blank or zero date, else the first ten
      characters of the trimmed string form. */
  function FmtDate(v: Option<Json>): (r: string)
    ensures r == [] <==> Trimmed(v) in ZeroTexts
    ensures r != [] ==> |r| <= 10 && StartsWith(Trimmed(v), r)
    ensures r != [] && |Trimmed(v)| >= 10 ==> |r| == 10
  {
    var s := Trimmed(v);
    if s == "" || s in ZeroTexts then "" else Take(s, 10)
  }

  // ----- Rows -----

  /** `VehicleRowUI`: the picker's fields; sort is `v_sort`. */
  datatype Vehicle = Vehicle(
    id: Json, name: Json, route: Json, std: Json, metr: Json, plate: Json,
    chassis: Json, engine: Json, brand: Json, model: Json, company: Json,
    invCompany: Json, register: Json, note: Json, sort: int)

  /** `coerceArray(raw)`, in the order of its own tests. */
  function CoerceArray(raw: Option<Json>): (r: seq<Json>)
    ensures raw.Some? && raw.value.JArr? ==> r == raw.value.items
  {
    if raw.Some? && raw.value.JArr? then raw.value.items
    else if Truthy(raw) && Field(raw, "rows").Some? && Field(raw, "rows").value.JArr? then
      Field(raw, "rows").value.items
    else if Truthy(raw) && raw.Some? && raw.value.JObj? && ReportShaping.DigitKeyed(raw.value.fields) then
      ReportShaping.Values(ReportShaping.ByKey(raw.value.fields))
    else []
  }

  /** The picker's `coerceArray` and the report page's `coerceRows` agree on
      every value. */
  lemma CoerceArrayAgrees(raw: Option<Json>)
    ensures CoerceArray(raw) == ReportShaping.CoerceRows(raw)
  {
  }

  /** `r.k1 ?? r.k2 ?? …`: the first alias whose value is neither null nor
      undefined. */
  function FirstPresent(row: Json, keys: seq<string>): (r: Option<Json>)
    ensures r.Some? <==> exists i :: 0 <= i < |keys| && !Nullish(Field(Some(row), keys[i]))
    ensures r.Some? ==> !Nullish(r)
    ensures r.Some? ==>
      exists i :: 0 <= i < |keys| && r == Field(Some(row), keys[i]) && (forall j :: 0 <= j < i ==> Nullish(Field(Some(row), keys[j])))
    decreases |keys|
  {
    if keys == [] then None
    else if !Nullish(Field(Some(row), keys[0])) then Field(Some(row), keys[0])
    else
      var r := FirstPresent(row, keys[1..]);
      assert forall i :: 0 < i < |keys| ==> keys[i] == keys[1..][i - 1];
      r
  }

  /** `r.k1 ?? … ?? ""`. */
  function Alias(row: Json, keys: seq<string>): Json {
    FirstPresent(row, keys).GetOr(JStr(""))
  }

  /** The sort number of a row: `toNum(v_sort ?? sort_order ?? sort, 0)`. */
  function SortOf(row: Json): int {
    ToNum(FirstPresent(row, ["v_sort", "sort_order", "sort"]), 0)
  }

  /** The row mapping of `normalizeRows`: the picker's own name wins over
      the aliases, and a field with no name present is "". */
  function MapVehicle(row: Json): (r: Vehicle)
    ensures !Nullish(Field(Some(row), "v_id")) ==> r.id == Field(Some(row), "v_id").value
    ensures !Nullish(Field(Some(row), "v_plate")) ==> r.plate == Field(Some(row), "v_plate").value
    ensures Nullish(Field(Some(row), "v_plate")) && Nullish(Field(Some(row), "plate")) ==> r.plate == JStr("")
    ensures r.sort == SortOf(row)
  {
    Vehicle(
      Alias(row, ["v_id", "id", "ID"]),
      Alias(row, ["v_name", "name"]),
      Alias(row, ["v_route", "lane"]),
      Alias(row, ["v_class", "std"]),
      Alias(row, ["v_metr", "length_m", "v_len_m"]),
      Alias(row, ["v_plate", "plate"]),
      Alias(row, ["v_chassis", "chassis"]),
      Alias(row, ["v_engine", "engine"]),
      Alias(row, ["v_brand", "brand"]),
      Alias(row, ["v_model", "model"]),
      Alias(row, ["v_company", "contractor"]),
      Alias(row, ["v_inv_com", "inv_company", "billing_to"]),
      Alias(row, ["v_register", "first_reg", "register"]),
      Alias(row, ["v_note"]),
      SortOf(row))
  }

  /** A present value under the picker's own name wins over every alias. */
  lemma OwnNameWins(row: Json, k: string, aliases: seq<string>)
    requires !Nullish(Field(Some(row), k))
    ensures Alias(row, [k] + aliases) == Field(Some(row), k).value
  {
  }

  /** A field none of whose names is present is "". */
  lemma AllMissing(row: Json, keys: seq<string>)
    requires forall i :: 0 <= i < |keys| ==> Nullish(Field(Some(row), keys[i]))
    ensures Alias(row, keys) == JStr("")
  {
  }

  /** A numeric `v_sort` is the sort number as it is. */
  lemma SortOfNumber(row: Json, n: int)
    requires Field(Some(row), "v_sort") == Number(n)
    ensures SortOf(row) == n
  {
    assert FirstPresent(row, ["v_sort", "sort_order", "sort"]) == Number(n);
    ToNumOfNumber(n, 0);
  }

  /** `toNum(v_id)`: the numeric id the comparator breaks ties by. */
  function IdNumber(v: Vehicle): int {
    ToNum(Some(v.id), 0)
  }

  /** The comparator `toNum(a.v_sort) - toNum(b.v_sort)`, then
      `toNum(a.v_id) - toNum(b.v_id)`: true when it is negative. */
  predicate VehicleBefore(a: Vehicle, b: Vehicle) {
    var s := ToNum(Number(a.sort), 0) - ToNum(Number(b.sort), 0);
    if s != 0 then s < 0 else IdNumber(a) - IdNumber(b) < 0
  }

  function Before(): (Vehicle, Vehicle) -> bool {
    (a: Vehicle, b: Vehicle) => VehicleBefore(a, b)
  }

  /** The comparator orders by sort number, then by numeric id. */
  lemma BeforeByKeys(a: Vehicle, b: Vehicle)
    ensures VehicleBefore(a, b) <==> a.sort < b.sort || (a.sort == b.sort && IdNumber(a) < IdNumber(b))
  {
    ToNumOfNumber(a.sort, 0);
    ToNumOfNumber(b.sort, 0);
  }

  /** The comparator is consistent, so the sort is well defined. */
  lemma BeforeOrder()
    ensures StrictWeakOrder(Before(), _ => true)
  {
    forall a: Vehicle, b: Vehicle
      ensures Before()(a, b) <==> a.sort < b.sort || (a.sort == b.sort && IdNumber(a) < IdNumber(b))
    {
      BeforeByKeys(a, b);
    }
  }

  /** Two rows the comparator does not separate share sort number and id. */
  lemma TiedKeys(a: Vehicle, b: Vehicle)
    ensures Tied(Before(), a, b) <==> a.sort == b.sort && IdNumber(a) == IdNumber(b)
  {
    BeforeByKeys(a, b);
    BeforeByKeys(b, a);
  }

  function MapRow(): Json -> Vehicle {
    (row: Json) => MapVehicle(row)
  }

  /** The mapped rows, in response order. */
  function Mapped(raw: Option<Json>): (r: seq<Vehicle>)
    ensures |r| == |CoerceArray(raw)|
    ensures forall i :: 0 <= i < |r| ==> r[i] == MapVehicle(CoerceArray(raw)[i])
  {
    Map(CoerceArray(raw), MapRow())
  }

  /** What `normalizeRows(raw)` returns: the mapped rows, each as often as
      it occurs. */
  function Normalized(raw: Option<Json>): (r: seq<Vehicle>)
    ensures |r| == |CoerceArray(raw)|
    ensures multiset(r) == multiset(Mapped(raw))
  {
    SortPermutation(Mapped(raw), Before());
    Sort(Mapped(raw), Before())
  }

  /** `normalizeRows(raw)`: the mapped rows are copied into an array and
      sorted in place. */
  method NormalizeRows(raw: Option<Json>) returns (r: seq<Vehicle>)
    ensures r == Normalized(raw)
  {
    r := SortedCopy(Mapped(raw), Before());
  }

  /** The normalised rows ascend by sort number, then by numeric id. */
  lemma NormalizedSorted(raw: Option<Json>)
    ensures forall i, j :: 0 <= i < j < |Normalized(raw)| ==>
      Normalized(raw)[i].sort < Normalized(raw)[j].sort ||
      (Normalized(raw)[i].sort == Normalized(raw)[j].sort &&
       IdNumber(Normalized(raw)[i]) <= IdNumber(Normalized(raw)[j]))
  {
    BeforeOrder();
    SortSorted(Mapped(raw), Before(), _ => true);
    KeysAscend(Normalized(raw));
  }

  /** A sequence sorted by the comparator ascends by sort number, then by id. */
  lemma KeysAscend(s: seq<Vehicle>)
    requires Sorted(s, Before())
    ensures forall i, j :: 0 <= i < j < |s| ==>
      s[i].sort < s[j].sort || (s[i].sort == s[j].sort && IdNumber(s[i]) <= IdNumber(s[j]))
  {
    forall i, j | 0 <= i < j < |s|
      ensures s[i].sort < s[j].sort || (s[i].sort == s[j].sort && IdNumber(s[i]) <= IdNumber(s[j]))
    {
      assert !Before()(s[j], s[i]);
      BeforeByKeys(s[j], s[i]);
    }
  }


  /** Rows with the same sort number and id keep their response order. */
  lemma NormalizedStable(raw: Option<Json>, e: Vehicle)
    ensures Filter(Normalized(raw), y => Tied(Before(), y, e)) == Filter(Mapped(raw), y => Tied(Before(), y, e))
  {
    BeforeOrder();
    SortStable(Mapped(raw), Before(), _ => true, e);
  }

  // ----- The search -----

  /** `json?.rows ?? json?.data ?? json?.result ?? json`. */
  function Candidate(json: Json): (r: Option<Json>)
    ensures !Nullish(Field(Some(json), "rows")) ==> r == Field(Some(json), "rows")
    ensures Nullish(Field(Some(json), "rows")) && !Nullish(Field(Some(json), "data")) ==>
      r == Field(Some(json), "data")
    ensures Nullish(Field(Some(json), "rows")) && Nullish(Field(Some(json), "data")) && !Nullish(Field(Some(json), "result")) ==>
      r == Field(Some(json), "result")
    ensures Nullish(Field(Some(json), "rows")) && Nullish(Field(Some(json), "data")) && Nullish(Field(Some(json), "result")) ==>
      r == Some(json)
  {
    var j := Some(json);
    Coalesce(Field(j, "rows"), Coalesce(Field(j, "data"), Coalesce(Field(j, "result"), j)))
  }

  /** The rows of a payload: the candidate's own `rows` array when it has
      one, else the candidate. */
  function Unwrap(json: Json): (r: Option<Json>)
    ensures Field(Candidate(json), "rows").Some? && Field(Candidate(json), "rows").value.JArr? ==>
      r == Field(Candidate(json), "rows")
    ensures !(Field(Candidate(json), "rows").Some? && Field(Candidate(json), "rows").value.JArr?) ==>
      r == Candidate(json)
  {
    var inner := Field(Candidate(json), "rows");
    if inner.Some? && inner.value.JArr? then inner else Candidate(json)
  }

  /** A bare array is the list itself. */
  lemma UnwrapArray(items: seq<Json>)
    ensures Unwrap(JArr(items)) == Some(JArr(items))
  {
  }

  /** A list wrapped as `{data: {rows: [...]}}` is found. */
  lemma UnwrapDataRows(items: seq<Json>)
    ensures Unwrap(JObj([("data", JObj([("rows", JArr(items))]))])) == Some(JArr(items))
  {
  }

  /** The message when no endpoint is configured. */
  const NoEndpointError := "ไม่ได้ตั้งค่า VITE_API_BASE_URL / VITE_VEHICLE_API"

  /** The message when an error carries none. */
  const LoadFailedError := "โหลดข้อมูลรถล้มเหลว"

  const HtmlPrefix := "HTML response (URL ผิดหรือโดน rewrite): "
  const InvalidJsonPrefix := "Invalid JSON: "

  /** The search URL: `q` when it is not empty, a limit of 2000 and the
      clock reading `now` as a cache buster. */
  function SearchUrl(endpoint: string, q: string, now: int): (r: Url)
    ensures r.location == endpoint
    ensures |r.query| == (if q == "" then 2 else 3)
    ensures q != "" ==> r.query[0] == ("q", q)
    ensures r.query[|r.query| - 2..] == [("limit", "2000"), ("_", IntToString(now))]
  {
    Url(endpoint, (if q != "" then [("q", q)] else []) + [("limit", "2000"), ("_", IntToString(now))])
  }

  /** `/^\s*</.test(text)`. */
  predicate LooksLikeHtml(text: string) {
    TrimStart(text) != [] && TrimStart(text)[0] == '<'
  }

  /** What the awaited fetch and parse give: the payload, or the error they
      throw. */
  function SearchResponse(net: Net): (r: Outcome<Json>)
    ensures net.Rejected? ==> r == Threw(net.name, net.message)
    ensures net.Delivered? && !Ok(net.response) ==>
      r == Threw("Error", "HTTP " + IntToString(net.response.status) + ": " + Take(net.response.text, 200))
    ensures net.Delivered? && Ok(net.response) && net.response.body.Parsed? ==>
      r == Done(net.response.body.value)
    ensures net.Delivered? && Ok(net.response) && net.response.body.Unparseable? ==>
      r.Threw? && r.name == "Error" &&
      r.message == (if LooksLikeHtml(net.response.text) then HtmlPrefix else InvalidJsonPrefix) +
        Take(net.response.text, 200)
  {
    match net
    case Rejected(name, message) => Threw(name, message)
    case Delivered(res) =>
      if !Ok(res) then Threw("Error", "HTTP " + IntToString(res.status) + ": " + Take(res.text, 200))
      else match res.body
        case Parsed(v) => Done(v)
        case Unparseable(_) =>
          Threw("Error", (if LooksLikeHtml(res.text) then HtmlPrefix else InvalidJsonPrefix) + Take(res.text, 200))
  }

  /** The rows a search yields, or the error it ends in: it succeeds exactly
      when the response does, with one row per payload element. */
  function SearchOutcome(endpoint: string, q: string, now: int, fetch: Request -> Net): (r: Outcome<seq<Vehicle>>)
    ensures r.Done? <==> SearchResponse(fetch(Request(SearchUrl(endpoint, q, now), map[]))).Done?
    ensures r.Done? ==>
      r.value == Normalized(Unwrap(SearchResponse(fetch(Request(SearchUrl(endpoint, q, now), map[]))).value))
    ensures r.Done? ==>
      |r.value| == |CoerceArray(Unwrap(SearchResponse(fetch(Request(SearchUrl(endpoint, q, now), map[]))).value))|
    ensures r.Threw? ==>
      && r.name == SearchResponse(fetch(Request(SearchUrl(endpoint, q, now), map[]))).name
      && r.message == SearchResponse(fetch(Request(SearchUrl(endpoint, q, now), map[]))).message
  {
    match SearchResponse(fetch(Request(SearchUrl(endpoint, q, now), map[])))
    case Done(json) => Done(Normalized(Unwrap(json)))
    case Threw(name, message) => Threw(name, message)
  }

  /** `e?.message || "โหลดข้อมูลรถล้มเหลว"`. */
  function ErrorText(message: string): (r: string)
    ensures r != ""
    ensures message != "" ==> r == message
  {
    if message != "" then message else LoadFailedError
  }

  /** The rows of a successful search are the normalised payload, and so
      are sorted. */
  lemma SearchRowsSorted(endpoint: string, q: string, now: int, fetch: Request -> Net)
    requires SearchOutcome(endpoint, q, now, fetch).Done?
    ensures forall i, j :: 0 <= i < j < |SearchOutcome(endpoint, q, now, fetch).value| ==>
      SearchOutcome(endpoint, q, now, fetch).value[i].sort <= SearchOutcome(endpoint, q, now, fetch).value[j].sort
  {
    var json := SearchResponse(fetch(Request(SearchUrl(endpoint, q, now), map[]))).value;
    var rows := Normalized(Unwrap(json));
    assert SearchOutcome(endpoint, q, now, fetch).value == rows;
    NormalizedSorted(Unwrap(json));
    SortsAscend(rows);
  }

  lemma SortsAscend(s: seq<Vehicle>)
    requires forall i, j :: 0 <= i < j < |s| ==>
      s[i].sort < s[j].sort || (s[i].sort == s[j].sort && IdNumber(s[i]) <= IdNumber(s[j]))
    ensures forall i, j :: 0 <= i < j < |s| ==> s[i].sort <= s[j].sort
  {
  }

  /** The picker's state: the rows shown, the error shown and the loading flag. */
  class Picker {
    const endpoint: string
    var rows: seq<Vehicle>
    var err: Option<string>
    var loading: bool

    /** The picker as it mounts, with the endpoint its two settings give. */
    constructor(direct: Option<string>, base: Option<string>)
      ensures endpoint == VehicleApi(direct, base)
      ensures rows == [] && err == None && !loading
    {
      endpoint := VehicleApi(direct, base);
      rows := [];
      err := None;
      loading := false;
    }

    /** The search effect for query q at clock reading now (the debounce is
        not modelled): nothing while closed; an error and no rows without an
        endpoint; otherwise the rows of the search, or its error and no rows,
        and loading off at the end. */
    method Refresh(open: bool, q: string, now: int, fetch: Request -> Net)
      modifies this
      ensures !open ==> rows == old(rows) && err == old(err) && loading == old(loading)
      ensures open && endpoint == "" ==> rows == [] && err == Some(NoEndpointError) && loading == old(loading)
      ensures open && endpoint != "" ==> !loading
      ensures open && endpoint != "" && SearchOutcome(endpoint, q, now, fetch).Done? ==>
        rows == SearchOutcome(endpoint, q, now, fetch).value && err == None
      ensures open && endpoint != "" && SearchOutcome(endpoint, q, now, fetch).Threw? ==>
        rows == [] && err == Some(ErrorText(SearchOutcome(endpoint, q, now, fetch).message))
    {
      if !open {
        return;
      }
      if endpoint == "" {
        err := Some(NoEndpointError);
        rows := [];
        return;
      }
      err := None;
      loading := true;
      var response := SearchResponse(fetch(Request(SearchUrl(endpoint, q, now), map[])));
      match response {
        case Done(json) =>
          var r := NormalizeRows(Unwrap(json));
          rows := r;
        case Threw(_, message) =>
          err := Some(ErrorText(message));
          rows := [];
      }
      loading := false;
    }
  }
}
