/** The JavaScript string built-ins the dashboard relies on: `trim`, ASCII
    `toLowerCase`, `includes`, `slice(0, n)`, `join`, digit tests, integer
    printing (`String(n)`), `parseInt(s, 10)` and `Number(s)`. Strings are
    sequences of Unicode scalar values. */
module JsStrings {
  import opened Wrappers

  /** WhiteSpace and LineTerminator of ECMAScript: the set both `trim` and the
      regular-expression class `\s` use. */
  predicate IsSpace(c: char) {
    var n := c as int;
    n == 0x09 || n == 0x0A || n == 0x0B || n == 0x0C || n == 0x0D || n == 0x20 ||
    n == 0xA0 || n == 0x1680 || (0x2000 <= n <= 0x200A) || n == 0x2028 ||
    n == 0x2029 || n == 0x202F || n == 0x205F || n == 0x3000 || n == 0xFEFF
  }

  predicate AllSpace(s: string) {
    forall i :: 0 <= i < |s| ==> IsSpace(s[i])
  }

  /** `s.trimStart()`: the suffix left after dropping leading white space. */
  function TrimStart(s: string): (r: string)
    ensures |r| <= |s|
    ensures r == [] || !IsSpace(r[0])
    ensures AllSpace(s[..|s| - |r|])
  {
    if s == [] || !IsSpace(s[0]) then s
    else
      var r := TrimStart(s[1..]);
      assert s[1..][..|s| - 1 - |r|] == s[1..|s| - |r|];
      r
  }

  /** What `trimStart` keeps is a suffix of its input. */
  lemma {:induction false} TrimStartSuffix(s: string)
    ensures TrimStart(s) == s[|s| - |TrimStart(s)|..]
  {
    if s != [] && IsSpace(s[0]) {
      TrimStartSuffix(s[1..]);
    }
  }

  /** `s.trimEnd()`: the prefix left after dropping trailing white space. */
  function TrimEnd(s: string): (r: string)
    ensures |r| <= |s| && r == s[..|r|]
    ensures r == [] || !IsSpace(r[|r| - 1])
    ensures AllSpace(s[|r|..])
  {
    if s == [] || !IsSpace(s[|s| - 1]) then s
    else
      var r := TrimEnd(s[..|s| - 1]);
      assert s[..|s| - 1][|r|..] + [s[|s| - 1]] == s[|r|..];
      r
  }

  /** `s.trim()`. */
  function Trim(s: string): (r: string)
    ensures r == [] || (!IsSpace(r[0]) && !IsSpace(r[|r| - 1]))
  {
    TrimEnd(TrimStart(s))
  }

  /** Trimming a string that has no white space at either end leaves it alone. */
  lemma TrimOfTrimmed(s: string)
    requires s == [] || (!IsSpace(s[0]) && !IsSpace(s[|s| - 1]))
    ensures Trim(s) == s
  {
  }

  /** Trimming is idempotent. */
  lemma TrimIdempotent(s: string)
    ensures Trim(Trim(s)) == Trim(s)
  {
    TrimOfTrimmed(Trim(s));
  }

  /** Appending white space does not change what `trimEnd` keeps. */
  lemma {:induction false} TrimEndAppendSpace(a: string, w: string)
    requires AllSpace(w)
    ensures TrimEnd(a + w) == TrimEnd(a)
    decreases |w|
  {
    if w != [] {
      var a' := a + w[..|w| - 1];
      assert a + w == a' + [w[|w| - 1]];
      assert (a + w)[..|a + w| - 1] == a';
      TrimEndAppendSpace(a, w[..|w| - 1]);
    } else {
      assert a + w == a;
    }
  }

  /** ASCII lower-casing: what `toLowerCase` does to the ASCII letters. */
  function LowerChar(c: char): (r: char)
    ensures 'A' <= c <= 'Z' ==> r as int == c as int + 32
    ensures !('A' <= c <= 'Z') ==> r == c
  {
    if 'A' <= c <= 'Z' then (c as int + 32) as char else c
  }

  function ToLower(s: string): (r: string)
    ensures |r| == |s|
    ensures forall i :: 0 <= i < |s| ==> r[i] == LowerChar(s[i])
  {
    if s == [] then [] else [LowerChar(s[0])] + ToLower(s[1..])
  }

  /** `hay.includes(needle)`. */
  predicate Contains(hay: string, needle: string) {
    exists i :: 0 <= i <= |hay| - |needle| && MatchAt(hay, needle, i)
  }

  /** needle occurs in hay at position i. */
  predicate MatchAt(hay: string, needle: string, i: int)
    requires 0 <= i <= |hay| - |needle|
  {
    hay[i..i + |needle|] == needle
  }

  lemma ContainsEmpty(hay: string)
    ensures Contains(hay, "")
  {
    assert MatchAt(hay, "", 0);
  }

  /** `s.startsWith(p)` and `s.endsWith(p)`. */
  predicate StartsWith(s: string, p: string) {
    |p| <= |s| && s[..|p|] == p
  }

  predicate EndsWith(s: string, p: string) {
    |p| <= |s| && s[|s| - |p|..] == p
  }

  /** `s.slice(0, n)` for n >= 0. */
  function Take(s: string, n: nat): (r: string)
    ensures |r| == if |s| <= n then |s| else n
    ensures r == s[..|r|]
  {
    if |s| <= n then s else s[..n]
  }

  /** `parts.join(sep)`. */
  function Join(parts: seq<string>, sep: string): string
  {
    if parts == [] then ""
    else if |parts| == 1 then parts[0]
    else parts[0] + sep + Join(parts[1..], sep)
  }

  /** Decimal digits as the regular-expression classes `\d` and `[0-9]` read them. */
  predicate IsDigit(c: char) {
    '0' <= c <= '9'
  }

  /** `/^\d+$/.test(s)`. */
  predicate IsDigits(s: string) {
    |s| > 0 && forall i :: 0 <= i < |s| ==> IsDigit(s[i])
  }

  function DigitValue(c: char): nat
    requires IsDigit(c)
  {
    c as int - '0' as int
  }

  function DigitChar(d: nat): (c: char)
    requires d < 10
    ensures IsDigit(c) && DigitValue(c) == d
  {
    ('0' as int + d) as char
  }

  /** The value of a string of decimal digits ("" counts as 0). */
  function DigitsValue(s: string): nat
    requires forall i :: 0 <= i < |s| ==> IsDigit(s[i])
  {
    if s == [] then 0 else DigitsValue(s[..|s| - 1]) * 10 + DigitValue(s[|s| - 1])
  }

  /** The decimal form of a natural number, without leading zeros. */
  function NatToString(n: nat): (r: string)
    ensures IsDigits(r)
    ensures DigitsValue(r) == n
    ensures r[0] == '0' ==> n == 0
  {
    if n < 10 then [DigitChar(n)]
    else
      var r := NatToString(n / 10) + [DigitChar(n % 10)];
      assert r[..|r| - 1] == NatToString(n / 10);
      r
  }

  /** `String(n)` for an integer n. */
  function IntToString(n: int): (r: string)
    ensures |r| > 0
    ensures n >= 0 ==> r == NatToString(n)
    ensures n < 0 ==> r == "-" + NatToString(-n)
  {
    if n < 0 then "-" + NatToString(-n) else NatToString(n)
  }

  /** The longest prefix of s made of decimal digits. */
  function LeadingDigits(s: string): (r: string)
    ensures |r| <= |s| && r == s[..|r|]
    ensures forall i :: 0 <= i < |r| ==> IsDigit(r[i])
    ensures |r| == |s| || !IsDigit(s[|r|])
  {
    if s == [] || !IsDigit(s[0]) then ""
    else [s[0]] + LeadingDigits(s[1..])
  }

  /** `parseInt(s, 10)`: leading white space, an optional sign, then the longest
      run of digits; None stands for NaN (no digit at all). */
  function ParseInt(s: string): (r: Option<int>)
    ensures r.Some? <==> (|TrimStart(s)| > 0 &&
      (if TrimStart(s)[0] == '-' || TrimStart(s)[0] == '+'
       then LeadingDigits(TrimStart(s)[1..]) != ""
       else IsDigit(TrimStart(s)[0])))
  {
    var t := TrimStart(s);
    if t == [] then None
    else
      var sign := if t[0] == '-' then -1 else 1;
      var body := if t[0] == '-' || t[0] == '+' then t[1..] else t;
      var d := LeadingDigits(body);
      if d == "" then None else Some(sign * DigitsValue(d))
  }

  /** A string of digits with no leading zero is all its own leading run. */
  lemma LeadingDigitsOfDigits(s: string)
    requires forall i :: 0 <= i < |s| ==> IsDigit(s[i])
    ensures LeadingDigits(s) == s
  {
  }

  /** `parseInt(String(n), 10) == n`. */
  lemma {:induction false} ParseIntOfIntToString(n: int)
    ensures ParseInt(IntToString(n)) == Some(n)
  {
    var s := IntToString(n);
    assert TrimStart(s) == s;
    if n < 0 {
      assert s[1..] == NatToString(-n);
      LeadingDigitsOfDigits(NatToString(-n));
    } else {
      LeadingDigitsOfDigits(NatToString(n));
    }
  }

  /** The value `Number(s)` gives a string: an integer or NaN. */
  datatype Num = Int(value: int) | NaN

  /** `Number(s)` on the integer literals: white space around an optionally
      signed run of decimal digits, or nothing but white space (which gives 0). */
  function StringToNumber(s: string): Num
  {
    NumberOfTrimmed(Trim(s))
  }

  /** `Number` after white space is trimmed away. */
  function NumberOfTrimmed(t: string): Num
  {
    if t == "" then Int(0)
    else if t[0] == '-' || t[0] == '+' then
      if !IsDigits(t[1..]) then NaN
      else if t[0] == '-' then Int(-(DigitsValue(t[1..]) as int))
      else Int(DigitsValue(t[1..]))
    else if IsDigits(t) then Int(DigitsValue(t))
    else NaN
  }

  /** The decimal form of an integer has no white space to trim. */
  lemma {:induction false} TrimOfIntToString(n: int)
    ensures Trim(IntToString(n)) == IntToString(n)
  {
    var s := IntToString(n);
    var d := NatToString(if n < 0 then -n else n);
    assert IsDigit(d[|d| - 1]);
    assert s[|s| - 1] == d[|d| - 1];
    assert IsDigit(s[0]) || s[0] == '-';
    TrimOfTrimmed(s);
  }

  /** `Number(String(n)) == n`. */
  lemma {:induction false} StringToNumberOfIntToString(n: int)
    ensures StringToNumber(IntToString(n)) == Int(n)
  {
    NumberOfDecimal(n);
    if n < 0 {
      NumberOfNegative(NatToString(-n));
    } else {
      NumberOfNatural(n);
    }
  }

  lemma {:induction false} NumberOfDecimal(n: int)
    ensures StringToNumber(IntToString(n)) == NumberOfTrimmed(IntToString(n))
  {
    TrimOfIntToString(n);
  }

  lemma NumberOfNatural(n: nat)
    ensures NumberOfTrimmed(NatToString(n)) == Int(n)
  {
  }

  lemma NumberOfNegative(d: string)
    requires IsDigits(d)
    ensures NumberOfTrimmed("-" + d) == Int(-(DigitsValue(d) as int))
  {
    assert ("-" + d)[1..] == d;
  }

  /** Lexicographic order on code points: what `localeCompare` is taken to be. */
  predicate Less(a: string, b: string)
    decreases |a|
  {
    if a == [] then b != []
    else if b == [] then false
    else if a[0] != b[0] then a[0] < b[0]
    else Less(a[1..], b[1..])
  }

  lemma {:induction false} LessIrreflexive(a: string)
    ensures !Less(a, a)
    decreases |a|
  {
    if a != [] { LessIrreflexive(a[1..]); }
  }

  lemma {:induction false} LessTransitive(a: string, b: string, c: string)
    requires Less(a, b) && Less(b, c)
    ensures Less(a, c)
    decreases |a|
  {
    if a != [] && b != [] && c != [] && a[0] == b[0] && b[0] == c[0] {
      LessTransitive(a[1..], b[1..], c[1..]);
    }
  }

  lemma {:induction false} LessTotal(a: string, b: string)
    requires a != b
    ensures Less(a, b) || Less(b, a)
    decreases |a|
  {
    if a != [] && b != [] && a[0] == b[0] {
      assert a == [a[0]] + a[1..] && b == [b[0]] + b[1..];
      LessTotal(a[1..], b[1..]);
    }
  }
}
