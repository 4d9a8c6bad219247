/** `keyOf(f)` of src/pages/ReportPage.tsx: the cache key of a filter, its
    mode, a colon, and `JSON.stringify` of the filter spread with every
    optional field defaulted to null. Two filters share a key only when they
    are the same filter, so the cache never serves one filter's rows for
    another's. */
module ReportKey {
  import opened Wrappers
  import opened JsStrings
  import opened JsValues
  import opened FilterDrawer

  function ModeName(m: Mode): (r: string)
    ensures |r| > 0
  {
    match m
    case CustomMode => "custom"
    case DailyMode => "daily"
    case PendingAllMode => "pendingAll"
    case HistoryMode => "history"
  }

  /** `v ?? null` for an optional string. */
  function OrNull(v: Option<string>): Json {
    match v
    case None => JNull
    case Some(s) => JStr(s)
  }

  /** The own properties of a filter object, in the order its literal lists
      them; a missing optional field is no property at all. */
  function OwnFields(f: Filters): seq<(string, Json)> {
    [("mode", JStr(ModeName(f.Mode())))] +
    match f
    case Custom(from, to) => Present("from", from) + Present("to", to)
    case Daily(date) => Present("date", date)
    case PendingAll => []
    case History(c, p, v) => Present("carName", c) + Present("plate", p) + Present("vin", v)
  }

  function Present(k: string, v: Option<string>): seq<(string, Json)> {
    if v.Some? then [(k, JStr(v.value))] else []
  }

  /** The properties the key's object literal sets after the spread. No
      filter carries a technician, so that one is always null. */
  function Defaults(f: Filters): seq<(string, Json)> {
    [("date", OrNull(if f.Daily? then f.date else None)),
     ("from", OrNull(if f.Custom? then f.from else None)),
     ("to", OrNull(if f.Custom? then f.to else None)),
     ("technician", JNull),
     ("carName", OrNull(if f.History? then f.carName else None)),
     ("plate", OrNull(if f.History? then f.plate else None)),
     ("vin", OrNull(if f.History? then f.vin else None))]
  }

  /** Assigning property k: the first field named k takes the value in
      place, or the field is appended when there is none. */
  function SetField(obj: seq<(string, Json)>, k: string, v: Json): (r: seq<(string, Json)>)
    ensures Lookup(r, k) == Some(v)
    ensures forall k' :: k' != k ==> Lookup(r, k') == Lookup(obj, k')
  {
    if obj == [] then [(k, v)]
    else if obj[0].0 == k then [(k, v)] + obj[1..]
    else
      var rest := SetField(obj[1..], k, v);
      assert forall k' :: k' != k && k' != obj[0].0 ==> Lookup([obj[0]] + rest, k') == Lookup(rest, k');
      [obj[0]] + rest
  }

  /** `{ ...base, k1: v1, k2: v2, ... }`: the properties assigned in order. */
  function Spread(base: seq<(string, Json)>, upd: seq<(string, Json)>): seq<(string, Json)>
    decreases |upd|
  {
    if upd == [] then base
    else
      var n := |upd| - 1;
      SetField(Spread(base, upd[..n]), upd[n].0, upd[n].1)
  }

  /** The value the last assignment of k gives. */
  function LastValue(upd: seq<(string, Json)>, k: string): Option<Json>
    decreases |upd|
  {
    if upd == [] then None
    else if upd[|upd| - 1].0 == k then Some(upd[|upd| - 1].1)
    else LastValue(upd[..|upd| - 1], k)
  }

  /** A spread property has the value of its last assignment; any other the
      value it had. */
  lemma {:induction false} LookupSpread(base: seq<(string, Json)>, upd: seq<(string, Json)>, k: string)
    ensures Lookup(Spread(base, upd), k) ==
      if LastValue(upd, k).Some? then LastValue(upd, k) else Lookup(base, k)
    decreases |upd|
  {
    if upd != [] {
      LookupSpread(base, upd[..|upd| - 1], k);
    }
  }

  /** The object `keyOf` stringifies. */
  function KeyObject(f: Filters): seq<(string, Json)> {
    Spread(OwnFields(f), Defaults(f))
  }

  /** `keyOf(f)`. */
  function KeyOf(f: Filters): (r: string)
    ensures StartsWith(r, ModeName(f.Mode()) + ":")
  {
    KeyText(f.Mode(), KeyObject(f))
  }

  /** A mode's name, a colon and the text of an object. */
  function KeyText(m: Mode, obj: seq<(string, Json)>): string {
    ModeName(m) + ":" + Stringify(JObj(obj))
  }

  /** Each optional field shows in the key object as its value, or as null
      when it is missing. */
  lemma KeyObjectFields(f: Filters)
    ensures Lookup(KeyObject(f), "date") == Some(OrNull(if f.Daily? then f.date else None))
    ensures Lookup(KeyObject(f), "from") == Some(OrNull(if f.Custom? then f.from else None))
    ensures Lookup(KeyObject(f), "to") == Some(OrNull(if f.Custom? then f.to else None))
    ensures Lookup(KeyObject(f), "carName") == Some(OrNull(if f.History? then f.carName else None))
    ensures Lookup(KeyObject(f), "plate") == Some(OrNull(if f.History? then f.plate else None))
    ensures Lookup(KeyObject(f), "vin") == Some(OrNull(if f.History? then f.vin else None))
  {
    var d := Defaults(f);
    DefaultsLast(f);
    LookupSpread(OwnFields(f), d, "date");
    LookupSpread(OwnFields(f), d, "from");
    LookupSpread(OwnFields(f), d, "to");
    LookupSpread(OwnFields(f), d, "carName");
    LookupSpread(OwnFields(f), d, "plate");
    LookupSpread(OwnFields(f), d, "vin");
  }

  lemma DefaultsLast(f: Filters)
    ensures LastValue(Defaults(f), "date") == Some(Defaults(f)[0].1)
    ensures LastValue(Defaults(f), "from") == Some(Defaults(f)[1].1)
    ensures LastValue(Defaults(f), "to") == Some(Defaults(f)[2].1)
    ensures LastValue(Defaults(f), "carName") == Some(Defaults(f)[4].1)
    ensures LastValue(Defaults(f), "plate") == Some(Defaults(f)[5].1)
    ensures LastValue(Defaults(f), "vin") == Some(Defaults(f)[6].1)
  {
    var d := Defaults(f);
    var keys := ["date", "from", "to", "technician", "carName", "plate", "vin"];
    assert forall i :: 0 <= i < 7 ==> d[i].0 == keys[i];
    forall j | 0 <= j < 7 && j != 3
      ensures LastValue(d, keys[j]) == Some(d[j].1)
    {
      LastValueDistinct(d, keys, j);
    }
    assert keys[0] == "date" && keys[1] == "from" && keys[2] == "to";
    assert keys[4] == "carName" && keys[5] == "plate" && keys[6] == "vin";
  }

  /** With distinct keys, the last assignment of a key is its only one. */
  lemma {:induction false} LastValueDistinct(upd: seq<(string, Json)>, keys: seq<string>, j: nat)
    requires |upd| == |keys| && j < |upd|
    requires forall i :: 0 <= i < |upd| ==> upd[i].0 == keys[i]
    requires forall i :: 0 <= i < |keys| && i != j ==> keys[i] != keys[j]
    ensures LastValue(upd, keys[j]) == Some(upd[j].1)
    decreases |upd|
  {
    var n := |upd| - 1;
    if j < n {
      LastValueDistinct(upd[..n], keys[..n], j);
    }
  }

  /** The key object holds only strings and nulls. */
  predicate Flat(a: seq<(string, Json)>) {
    forall i :: 0 <= i < |a| ==> a[i].1 == JNull || a[i].1.JStr?
  }

  lemma {:induction false} SetFieldFlat(obj: seq<(string, Json)>, k: string, v: Json)
    requires Flat(obj) && (v == JNull || v.JStr?)
    ensures Flat(SetField(obj, k, v))
    decreases |obj|
  {
    if obj != [] && obj[0].0 != k {
      SetFieldFlat(obj[1..], k, v);
      var rest := SetField(obj[1..], k, v);
      assert SetField(obj, k, v) == [obj[0]] + rest;
    }
  }

  lemma {:induction false} SpreadFlat(base: seq<(string, Json)>, upd: seq<(string, Json)>)
    requires Flat(base) && Flat(upd)
    ensures Flat(Spread(base, upd))
    decreases |upd|
  {
    if upd != [] {
      var n := |upd| - 1;
      assert Flat(upd[..n]) by {
        forall i | 0 <= i < n
          ensures upd[..n][i].1 == JNull || upd[..n][i].1.JStr?
        {
          assert upd[..n][i] == upd[i];
        }
      }
      SpreadFlat(base, upd[..n]);
      SetFieldFlat(Spread(base, upd[..n]), upd[n].0, upd[n].1);
    }
  }

  lemma KeyObjectFlat(f: Filters)
    ensures Flat(KeyObject(f))
  {
    OwnFieldsFlat(f);
    DefaultsFlat(f);
    SpreadFlat(OwnFields(f), Defaults(f));
  }

  lemma FlatAppend(a: seq<(string, Json)>, b: seq<(string, Json)>)
    requires Flat(a) && Flat(b)
    ensures Flat(a + b)
  {
    forall i | 0 <= i < |a + b|
      ensures (a + b)[i].1 == JNull || (a + b)[i].1.JStr?
    {
      if i < |a| {
        assert (a + b)[i] == a[i];
      } else {
        assert (a + b)[i] == b[i - |a|];
      }
    }
  }

  lemma OwnFieldsFlat(f: Filters)
    ensures Flat(OwnFields(f))
  {
    var head: seq<(string, Json)> := [("mode", JStr(ModeName(f.Mode())))];
    assert Flat(head);
    match f
    case Custom(from, to) =>
      FlatAppend(Present("from", from), Present("to", to));
      FlatAppend(head, Present("from", from) + Present("to", to));
    case Daily(date) =>
      FlatAppend(head, Present("date", date));
    case PendingAll =>
      assert OwnFields(f) == head;
    case History(c, p, v) =>
      FlatAppend(Present("carName", c), Present("plate", p));
      FlatAppend(Present("carName", c) + Present("plate", p), Present("vin", v));
      FlatAppend(head, Present("carName", c) + Present("plate", p) + Present("vin", v));
  }

  lemma DefaultsFlat(f: Filters)
    ensures Flat(Defaults(f))
  {
    var d := Defaults(f);
    forall i | 0 <= i < |d|
      ensures d[i].1 == JNull || d[i].1.JStr?
    {
    }
  }

  /** The text of one member of an object: its quoted key, a colon, the value. */
  function Member(p: (string, Json)): string {
    Quote(p.0) + ":" + Stringify(p.1)
  }

  /** The member texts of `JSON.stringify` of an object. */
  function Members(a: seq<(string, Json)>): (r: seq<string>)
    ensures |r| == |a|
    ensures forall i :: 0 <= i < |a| ==> r[i] == Member(a[i])
  {
    seq(|a|, i requires 0 <= i < |a| => Member(a[i]))
  }

  lemma StringifyObject(a: seq<(string, Json)>)
    ensures Stringify(JObj(a)) == "{" + Join(Members(a), ",") + "}"
  {
    assert Members(a) == seq(|a|, i requires 0 <= i < |a| => Quote(a[i].0) + ":" + Stringify(a[i].1));
  }

  /** What follows the first member: the closing brace, or a comma and the
      other members. */
  function After(a: seq<(string, Json)>): string
    requires a != []
  {
    if |a| == 1 then "}" else "," + Join(Members(a[1..]), ",") + "}"
  }

  /** The text of the members and the closing brace starts with the first
      member. */
  lemma MembersHead(a: seq<(string, Json)>)
    requires a != []
    ensures Join(Members(a), ",") + "}" == Quote(a[0].0) + (":" + (Stringify(a[0].1) + After(a)))
  {
    assert Join(Members(a), ",") + "}" == Member(a[0]) + After(a) by {
      JoinHead(Members(a));
      assert Members(a)[1..] == Members(a[1..]);
    }
    Associate(Quote(a[0].0), ":", Stringify(a[0].1), After(a));
  }

  lemma JoinHead(m: seq<string>)
    requires m != []
    ensures Join(m, ",") + "}" == m[0] + (if |m| == 1 then "}" else "," + Join(m[1..], ",") + "}")
  {
    if |m| > 1 {
      var rest := Join(m[1..], ",");
      assert Join(m, ",") == m[0] + "," + rest;
      assert m[0] + "," + rest + "}" == m[0] + ("," + rest + "}");
    }
  }

  lemma Associate(q: string, c: string, v: string, x: string)
    ensures q + c + v + x == q + (c + (v + x))
  {
  }

  /** The text of a string or null value is followed by something that can
      be read back. */
  lemma FlatValueInjective(v: Json, w: Json, x: string, y: string)
    requires v == JNull || v.JStr?
    requires w == JNull || w.JStr?
    requires Stringify(v) + x == Stringify(w) + y
    ensures v == w && x == y
  {
    var sv, sw := Stringify(v), Stringify(w);
    assert (sv + x)[0] == sv[0] && (sw + y)[0] == sw[0];
    if v.JStr? && w.JStr? {
      QuoteInjective(v.s, w.s, x, y);
    } else if v == JNull && w == JNull {
      assert x == (sv + x)[4..];
      assert y == (sw + y)[4..];
    }
  }

  lemma DropPrefix(p: string, x: string, y: string)
    requires p + x == p + y
    ensures x == y
  {
    assert x == (p + x)[|p|..];
    assert y == (p + y)[|p|..];
  }

  lemma FlatTail(a: seq<(string, Json)>)
    requires a != [] && Flat(a)
    ensures Flat(a[1..])
  {
    forall i | 0 <= i < |a| - 1
      ensures a[1..][i].1 == JNull || a[1..][i].1.JStr?
    {
      assert a[1..][i] == a[i + 1];
    }
  }

  /** The members of an object of strings and nulls can be read back from
      its text. */
  lemma {:induction false} FlatMembersInjective(a: seq<(string, Json)>, b: seq<(string, Json)>)
    requires Flat(a) && Flat(b)
    requires Join(Members(a), ",") + "}" == Join(Members(b), ",") + "}"
    ensures a == b
    decreases |a|, 1
  {
    if a == [] && b == [] {
    } else if a == [] {
      MembersTextHead(b);
    } else if b == [] {
      MembersTextHead(a);
    } else {
      FirstMembersEqual(a, b);
      AfterInjective(a, b);
      ConsEqual(a, b);
    }
  }

  lemma ConsEqual<T>(a: seq<T>, b: seq<T>)
    requires a != [] && b != [] && a[0] == b[0] && a[1..] == b[1..]
    ensures a == b
  {
    assert a == [a[0]] + a[1..] && b == [b[0]] + b[1..];
  }

  /** The member text of a non-empty object starts with a quote, not a brace. */
  lemma MembersTextHead(a: seq<(string, Json)>)
    requires a != []
    ensures (Join(Members(a), ",") + "}")[0] == '"'
  {
    MembersHead(a);
    var q := Quote(a[0].0);
    assert (q + (":" + (Stringify(a[0].1) + After(a))))[0] == q[0];
  }

  /** Equal member texts start with equal first members, followed by equal rests. */
  lemma FirstMembersEqual(a: seq<(string, Json)>, b: seq<(string, Json)>)
    requires a != [] && b != [] && Flat(a) && Flat(b)
    requires Join(Members(a), ",") + "}" == Join(Members(b), ",") + "}"
    ensures a[0] == b[0] && After(a) == After(b)
  {
    MembersHead(a);
    MembersHead(b);
    var ta, tb := Stringify(a[0].1) + After(a), Stringify(b[0].1) + After(b);
    QuoteInjective(a[0].0, b[0].0, ":" + ta, ":" + tb);
    DropPrefix(":", ta, tb);
    assert a[0].1 == JNull || a[0].1.JStr?;
    assert b[0].1 == JNull || b[0].1.JStr?;
    FlatValueInjective(a[0].1, b[0].1, After(a), After(b));
  }

  /** The rest after equal first members is equal only for equal remainders. */
  lemma {:induction false} AfterInjective(a: seq<(string, Json)>, b: seq<(string, Json)>)
    requires a != [] && b != [] && Flat(a) && Flat(b)
    requires After(a) == After(b)
    ensures a[1..] == b[1..]
    decreases |a|, 0
  {
    if |a| > 1 && |b| > 1 {
      var ra, rb := Join(Members(a[1..]), ",") + "}", Join(Members(b[1..]), ",") + "}";
      assert After(a) == "," + ra && After(b) == "," + rb;
      DropPrefix(",", ra, rb);
      FlatTail(a);
      FlatTail(b);
      FlatMembersInjective(a[1..], b[1..]);
    }
  }

  /** Distinct modes have distinct names that differ in the first letter. */
  lemma ModeNameFirst(m: Mode, n: Mode)
    requires m != n
    ensures ModeName(m)[0] != ModeName(n)[0]
  {
  }

  /** `keyOf` is injective: the cache key identifies the filter. */
  lemma KeyOfInjective(f: Filters, g: Filters)
    requires KeyOf(f) == KeyOf(g)
    ensures f == g
  {
    KeyObjectFlat(f);
    KeyObjectFlat(g);
    KeyTextInjective(f.Mode(), g.Mode(), KeyObject(f), KeyObject(g));
    OrNullInjective(f, g);
  }

  /** The text of a mode and an object of strings and nulls gives back both. */
  lemma KeyTextInjective(m: Mode, n: Mode, a: seq<(string, Json)>, b: seq<(string, Json)>)
    requires Flat(a) && Flat(b) && KeyText(m, a) == KeyText(n, b)
    ensures m == n && a == b
  {
    KeyTextSplit(m, a);
    KeyTextSplit(n, b);
    if m != n {
      ModeNameFirst(m, n);
    } else {
      DropPrefix(ModeName(m) + ":{", Join(Members(a), ",") + "}", Join(Members(b), ",") + "}");
      FlatMembersInjective(a, b);
    }
  }

  lemma KeyTextSplit(m: Mode, a: seq<(string, Json)>)
    ensures KeyText(m, a) == (ModeName(m) + ":{") + (Join(Members(a), ",") + "}")
    ensures KeyText(m, a)[0] == ModeName(m)[0]
  {
    StringifyObject(a);
    KeyShape(ModeName(m), Join(Members(a), ","), Stringify(JObj(a)), KeyText(m, a));
  }

  lemma KeyShape(name: string, body: string, obj: string, key: string)
    requires |name| > 0
    requires obj == "{" + body + "}"
    requires key == name + ":" + obj
    ensures key == (name + ":{") + (body + "}")
    ensures key[0] == name[0]
  {
  }

  /** Filters of one mode with the same defaulted fields are equal. */
  lemma OrNullInjective(f: Filters, g: Filters)
    requires f.Mode() == g.Mode()
    requires Lookup(KeyObject(f), "date") == Lookup(KeyObject(g), "date")
    requires Lookup(KeyObject(f), "from") == Lookup(KeyObject(g), "from")
    requires Lookup(KeyObject(f), "to") == Lookup(KeyObject(g), "to")
    requires Lookup(KeyObject(f), "carName") == Lookup(KeyObject(g), "carName")
    requires Lookup(KeyObject(f), "plate") == Lookup(KeyObject(g), "plate")
    requires Lookup(KeyObject(f), "vin") == Lookup(KeyObject(g), "vin")
    ensures f == g
  {
    KeyObjectFields(f);
    KeyObjectFields(g);
  }

  /** A missing field (null in the key) and an empty one ("" in the key)
      make different keys. */
  lemma MissingIsNotEmpty()
    ensures KeyOf(Daily(None)) != KeyOf(Daily(Some("")))
  {
    KeyObjectFields(Daily(None));
    KeyObjectFields(Daily(Some("")));
    if KeyOf(Daily(None)) == KeyOf(Daily(Some(""))) {
      KeyOfInjective(Daily(None), Daily(Some("")));
    }
  }
}
