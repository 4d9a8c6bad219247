/** JSON values as the dashboard receives them from `JSON.parse`, and the
    JavaScript operations it applies to them: truthiness, `??`, `||`, property
    access, `String(v)`, `Number(v)` and `JSON.stringify`. A value that may be
    `undefined` is an `Option<Json>` whose `None` is `undefined`. */
module JsValues {
  import opened Wrappers
  import opened JsStrings

  /** A JSON value. Numbers are integers; an object keeps its fields in order. */
  datatype Json =
    | JNull
    | JBool(b: bool)
    | JNum(n: int)
    | JStr(s: string)
    | JArr(items: seq<Json>)
    | JObj(fields: seq<(string, Json)>)

  /** JavaScript truthiness: `undefined`, `null`, `false`, `0` and `""` are falsy. */
  predicate Truthy(v: Option<Json>) {
    match v
    case None => false
    case Some(JNull) => false
    case Some(JBool(b)) => b
    case Some(JNum(n)) => n != 0
    case Some(JStr(s)) => s != ""
    case Some(_) => true
  }

  predicate Nullish(v: Option<Json>) {
    v == None || v == Some(JNull)
  }

  /** `a ?? b`. */
  function Coalesce(a: Option<Json>, b: Option<Json>): (r: Option<Json>)
    ensures !Nullish(a) ==> r == a
    ensures Nullish(a) ==> r == b
  {
    if Nullish(a) then b else a
  }

  /** `a || b`. */
  function OrElse(a: Option<Json>, b: Option<Json>): (r: Option<Json>)
    ensures Truthy(a) ==> r == a
    ensures !Truthy(a) ==> r == b
  {
    if Truthy(a) then a else b
  }

  /** The value of the first field named k. */
  function Lookup(fields: seq<(string, Json)>, k: string): (r: Option<Json>)
    ensures r.Some? <==> exists i :: 0 <= i < |fields| && fields[i].0 == k
    ensures r.Some? ==> exists i :: 0 <= i < |fields| && fields[i] == (k, r.value)
  {
    if fields == [] then None
    else if fields[0].0 == k then Some(fields[0].1)
    else
      var r := Lookup(fields[1..], k);
      assert forall i :: 0 < i < |fields| ==> fields[i] == fields[1..][i - 1];
      r
  }

  /** The field found is the first of that name: duplicate keys are read by
      their first occurrence. */
  lemma {:induction false} LookupFirst(fields: seq<(string, Json)>, k: string)
    ensures Lookup(fields, k).Some? ==>
      exists i :: 0 <= i < |fields| && fields[i] == (k, Lookup(fields, k).value) &&
        forall j :: 0 <= j < i ==> fields[j].0 != k
    decreases |fields|
  {
    if fields != [] && fields[0].0 != k {
      LookupFirst(fields[1..], k);
      if Lookup(fields, k).Some? {
        var i :| 0 <= i < |fields| - 1 && fields[1..][i] == (k, Lookup(fields, k).value) &&
          forall j :: 0 <= j < i ==> fields[1..][j].0 != k;
        assert fields[i + 1] == (k, Lookup(fields, k).value);
        forall j | 0 <= j < i + 1
          ensures fields[j].0 != k
        {
          if j > 0 {
            assert fields[j] == fields[1..][j - 1];
          }
        }
      }
    }
  }

  /** `v?.[k]`: a field of an object; `undefined` for every other value. */
  function Field(v: Option<Json>, k: string): (r: Option<Json>)
    ensures r.Some? ==> v.Some? && v.value.JObj?
    ensures v.Some? && v.value.JObj? && v.value.fields != [] && v.value.fields[0].0 == k ==>
      r == Some(v.value.fields[0].1)
  {
    match v
    case Some(JObj(fields)) => Lookup(fields, k)
    case _ => None
  }

  function Str(s: string): Option<Json> {
    Some(JStr(s))
  }

  function Number(n: int): Option<Json> {
    Some(JNum(n))
  }

  /** `String(v)` for a JSON value: a string is itself, a number its decimal
      form (which `Number` reads back), an object "[object Object]" and an
      empty array "". */
  function ToStr(v: Json): (r: string)
    ensures v.JStr? ==> r == v.s
    ensures v.JNum? ==> StringToNumber(r) == Int(v.n)
    ensures v.JObj? ==> r == "[object Object]"
    ensures v == JArr([]) ==> r == ""
    decreases v
  {
    match v
    case JNull => "null"
    case JBool(b) => if b then "true" else "false"
    case JNum(n) =>
      StringToNumberOfIntToString(n);
      IntToString(n)
    case JStr(s) => s
    case JArr(items) =>
      Join(seq(|items|, i requires 0 <= i < |items| =>
        if items[i] == JNull then "" else ToStr(items[i])), ",")
    case JObj(_) => "[object Object]"
  }

  /** `String(v)` for a value that may be `undefined`: it agrees with
      `String(v ?? "")` except on null and undefined. */
  function StringOf(v: Option<Json>): (r: string)
    ensures v == None ==> r == "undefined"
    ensures v == Some(JNull) ==> r == "null"
    ensures !Nullish(v) ==> r == StringOrEmpty(v)
  {
    match v
    case None => "undefined"
    case Some(j) => ToStr(j)
  }

  /** `String(v ?? "")`: missing and null values print as the empty string. */
  function StringOrEmpty(v: Option<Json>): (r: string)
    ensures Nullish(v) ==> r == ""
    ensures v.Some? && v.value.JStr? ==> r == v.value.s
  {
    ToStr(Coalesce(v, Str("")).value)
  }

  /** `Number(v)` for a JSON value: booleans count 0 or 1, null 0, strings
      and arrays go through their string form, objects are NaN. */
  function ToNumber(v: Json): (r: Num)
    ensures v.JNum? ==> r == Int(v.n)
    ensures v.JNull? ==> r == Int(0)
    ensures v.JBool? ==> r == Int(if v.b then 1 else 0)
    ensures v.JStr? ==> r == StringToNumber(v.s)
    ensures v.JObj? ==> r == NaN
    ensures v == JArr([]) ==> r == Int(0)
    ensures v.JArr? && |v.items| == 1 && v.items[0].JNum? ==> r == Int(v.items[0].n)
  {
    match v
    case JNull => Int(0)
    case JBool(b) => Int(if b then 1 else 0)
    case JNum(n) => Int(n)
    case _ => StringToNumber(ToStr(v))
  }

  /** `Number(v)` for a value that may be `undefined` (which is NaN). */
  function NumberOf(v: Option<Json>): Num {
    match v
    case None => NaN
    case Some(j) => ToNumber(j)
  }

  /** The hexadecimal digit JSON.stringify writes (lower case). */
  function HexDigit(d: nat): (c: char)
    requires d < 16
  {
    if d < 10 then ('0' as int + d) as char else ('a' as int + d - 10) as char
  }

  /** How `JSON.stringify` writes one character inside a string literal. */
  function EscChar(c: char): (r: string)
    ensures |r| > 0 && r[0] != '"'
  {
    var n := c as int;
    if c == '"' then "\\\""
    else if c == '\\' then "\\\\"
    else if n == 0x08 then "\\b"
    else if n == 0x09 then "\\t"
    else if n == 0x0A then "\\n"
    else if n == 0x0C then "\\f"
    else if n == 0x0D then "\\r"
    else if n < 0x20 then "\\u00" + [HexDigit(n / 16), HexDigit(n % 16)]
    else [c]
  }

  function Escape(s: string): (r: string)
    ensures s == [] <==> r == []
  {
    if s == [] then "" else EscChar(s[0]) + Escape(s[1..])
  }

  /** `JSON.stringify(s)` for a string s. */
  function Quote(s: string): (r: string)
    ensures |r| >= 2 && r[0] == '"'
  {
    "\"" + Escape(s) + "\""
  }

  /** `JSON.stringify(v)`: never empty; strings are quoted, arrays bracketed
      and objects braced. */
  function Stringify(v: Json): (r: string)
    ensures r != []
    ensures v.JStr? ==> r[0] == '"'
    ensures v.JArr? ==> r[0] == '[' && r[|r| - 1] == ']'
    ensures v.JObj? ==> r[0] == '{' && r[|r| - 1] == '}'
    decreases v
  {
    match v
    case JNull => "null"
    case JBool(b) => if b then "true" else "false"
    case JNum(n) => IntToString(n)
    case JStr(s) => Quote(s)
    case JArr(items) =>
      "[" + Join(seq(|items|, i requires 0 <= i < |items| => Stringify(items[i])), ",") + "]"
    case JObj(fields) =>
      "{" + Join(seq(|fields|, i requires 0 <= i < |fields| =>
        Quote(fields[i].0) + ":" + Stringify(fields[i].1)), ",") + "}"
  }

  lemma HexDigitInjective(a: nat, b: nat)
    requires a < 16 && b < 16 && HexDigit(a) == HexDigit(b)
    ensures a == b
  {
  }

  /** How many characters the escape at the head of r takes; it is read off
      its first two characters. */
  function EscLen(r: string): nat {
    if r == [] then 0
    else if r[0] != '\\' || |r| < 2 then 1
    else if r[1] == 'u' then 6
    else 2
  }

  lemma EscLenOfEscChar(c: char, x: string)
    ensures EscLen(EscChar(c) + x) == |EscChar(c)|
  {
    var e := EscChar(c);
    assert (e + x)[0] == e[0];
    if |e| > 1 {
      assert (e + x)[1] == e[1];
    }
  }

  /** The control characters JSON.stringify writes as `\u00XX`. */
  predicate UnicodeEscaped(c: char) {
    var n := c as int;
    n < 0x20 && n != 0x08 && n != 0x09 && n != 0x0A && n != 0x0C && n != 0x0D
  }

  lemma EscCharInjective(c: char, d: char)
    requires EscChar(c) == EscChar(d)
    ensures c == d
  {
    if UnicodeEscaped(c) && UnicodeEscaped(d) {
      var n, m := c as int, d as int;
      assert EscChar(c)[4] == HexDigit(n / 16) && EscChar(c)[5] == HexDigit(n % 16);
      assert EscChar(d)[4] == HexDigit(m / 16) && EscChar(d)[5] == HexDigit(m % 16);
      HexDigitInjective(n / 16, m / 16);
      HexDigitInjective(n % 16, m % 16);
    }
  }

  /** No two characters are written alike, and no escape is a proper prefix of
      another: the escapes form a prefix-free code. */
  lemma EscCharPrefixFree(c: char, d: char, x: string, y: string)
    requires EscChar(c) + x == EscChar(d) + y
    ensures c == d && x == y
  {
    var ec, ed := EscChar(c), EscChar(d);
    EscLenOfEscChar(c, x);
    EscLenOfEscChar(d, y);
    assert ec == (ec + x)[..|ec|] && ed == (ed + y)[..|ed|];
    EscCharInjective(c, d);
    assert (ec + x)[|ec|..] == x && (ed + y)[|ed|..] == y;
  }

  /** The escaped text of a string ends at the first unescaped quote, so the
      string and what follows the quote can be read back. */
  lemma {:induction false} EscapeInjective(a: string, b: string, x: string, y: string)
    requires Escape(a) + "\"" + x == Escape(b) + "\"" + y
    ensures a == b && x == y
    decreases |a|
  {
    if a == [] && b == [] {
      assert x == (Escape(a) + "\"" + x)[1..];
      assert y == (Escape(b) + "\"" + y)[1..];
    } else if a == [] {
      EscapeHead(b, y);
    } else if b == [] {
      EscapeHead(a, x);
    } else {
      EscapeHead(a, x);
      EscapeHead(b, y);
      EscCharPrefixFree(a[0], b[0], Escape(a[1..]) + "\"" + x, Escape(b[1..]) + "\"" + y);
      EscapeInjective(a[1..], b[1..], x, y);
      assert a == [a[0]] + a[1..] && b == [b[0]] + b[1..];
    }
  }

  /** The escaped text of a non-empty string starts with its first character's
      escape, which is not a quote. */
  lemma EscapeHead(a: string, x: string)
    requires a != []
    ensures Escape(a) + "\"" + x == EscChar(a[0]) + (Escape(a[1..]) + "\"" + x)
    ensures (Escape(a) + "\"" + x)[0] != '"'
  {
    assert (EscChar(a[0]) + (Escape(a[1..]) + "\"" + x))[0] == EscChar(a[0])[0];
  }

  /** Two string literals followed by anything are equal only when the strings
      and the rest are. */
  lemma QuoteInjective(a: string, b: string, x: string, y: string)
    requires Quote(a) + x == Quote(b) + y
    ensures a == b && x == y
  {
    assert Quote(a) + x == "\"" + (Escape(a) + "\"" + x);
    assert Quote(b) + y == "\"" + (Escape(b) + "\"" + y);
    assert (Quote(a) + x)[1..] == Escape(a) + "\"" + x;
    assert (Quote(b) + y)[1..] == Escape(b) + "\"" + y;
    EscapeInjective(a, b, x, y);
  }
}
