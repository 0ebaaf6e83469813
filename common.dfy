/** Values shared by the backend and the client: an optional value, JavaScript
    truthiness of optional strings, integer parsing as `parseInt(s, 10)` does it,
    sums over sequences, and the two string operations the client applies to dates
    (`split('T')[0]` and lexicographic comparison). */
module Common {

  /** A value that may be absent (`undefined` / `null` in the source). */
  datatype Option<+T> = None | Some(value: T) {
    /** `x || default` for a value that is never falsy when present. */
    function GetOr(default: T): T {
      match this
      case Some(v) => v
      case None => default
    }
  }

  /** JavaScript truthiness of a string that may be missing: present and non-empty. */
  predicate Truthy(s: Option<string>) {
    s.Some? && s.value != ""
  }

  /** `s || fallback` for a string that may be missing. */
  function OrElse(s: Option<string>, fallback: string): string {
    if Truthy(s) then s.value else fallback
  }

  /** The value stored under `key` in a form's entries, if any. */
  function Get(m: map<string, string>, key: string): (r: Option<string>)
    ensures r.Some? <==> key in m
    ensures r.Some? ==> r.value == m[key]
  {
    if key in m then Some(m[key]) else None
  }

  // ---------------------------------------------------------------------------
  // Sums

  /** The sum of `f` over the elements of `s`. */
  function SumOf<T>(s: seq<T>, f: T -> int): int {
    if s == [] then 0 else f(s[0]) + SumOf(s[1..], f)
  }

  lemma {:induction false} SumOfConcat<T>(a: seq<T>, b: seq<T>, f: T -> int)
    ensures SumOf(a + b, f) == SumOf(a, f) + SumOf(b, f)
  {
    if a == [] {
      assert a + b == b;
    } else {
      assert (a + b)[1..] == a[1..] + b;
      SumOfConcat(a[1..], b, f);
    }
  }

  lemma SumOfAppend<T>(a: seq<T>, x: T, f: T -> int)
    ensures SumOf(a + [x], f) == SumOf(a, f) + f(x)
  {
    SumOfConcat(a, [x], f);
  }

  // ---------------------------------------------------------------------------
  // parseInt(s) with radix 10

  predicate IsSpace(c: char) {
    c == ' ' || c == '\t' || c == '\n' || c == '\r'
  }

  predicate IsDigit(c: char) {
    '0' <= c <= '9'
  }

  predicate AllDigits(s: string) {
    forall i :: 0 <= i < |s| ==> IsDigit(s[i])
  }

  /** The string without its leading white space. */
  function TrimStart(s: string): (r: string)
    ensures |r| <= |s| && r == s[|s| - |r|..]
    ensures r == [] || !IsSpace(r[0])
    ensures forall i :: 0 <= i < |s| - |r| ==> IsSpace(s[i])
  {
    if s != [] && IsSpace(s[0]) then
      var r := TrimStart(s[1..]);
      assert s[1..][|s| - 1 - |r|..] == s[|s| - |r|..];
      assert forall i :: 1 <= i < |s| - |r| ==> s[i] == s[1..][i - 1];
      r
    else s
  }

  /** The length of the longest prefix of `s` made of decimal digits. */
  function DigitRun(s: string): (n: nat)
    ensures n <= |s|
    ensures AllDigits(s[..n])
    ensures n < |s| ==> !IsDigit(s[n])
  {
    if s != [] && IsDigit(s[0]) then
      var n := 1 + DigitRun(s[1..]);
      assert s[..n] == [s[0]] + s[1..][..n - 1];
      n
    else
      0
  }

  /** The number a non-empty run of decimal digits denotes. */
  function DigitsValue(d: string): nat
    requires AllDigits(d)
  {
    if d == [] then 0
    else 10 * DigitsValue(d[..|d| - 1]) + (d[|d| - 1] as int - '0' as int)
  }

  /** The longest run of decimal digits at the start of `u`, read as a number;
      `None` when `u` does not start with a digit. */
  function ParseUnsigned(u: string): Option<int> {
    var n := DigitRun(u);
    if n == 0 then None else Some(DigitsValue(u[..n]))
  }

  /** The part of `t` after an optional leading sign. */
  function AfterSign(t: string): (u: string)
    ensures |u| <= |t|
  {
    if t != [] && (t[0] == '-' || t[0] == '+') then t[1..] else t
  }

  /** `parseInt(s)` as the client calls it, on decimal text: leading white space
      (space, tab, line feed, carriage return), an optional sign, then the
      longest run of decimal digits; `None` stands for `NaN` (no digit where one
      is needed). A "0x" prefix and the other white space characters JavaScript
      skips are outside this model. */
  function ParseInt(s: string): (r: Option<int>)
    ensures var u := AfterSign(TrimStart(s));
            r.None? <==> u == [] || !IsDigit(u[0])
    ensures var t := TrimStart(s);
            var u := AfterSign(t);
            r.Some? ==> var m := DigitsValue(u[..DigitRun(u)]);
                        r.value == if t[0] == '-' then 0 - m else m
  {
    var t := TrimStart(s);
    if t != [] && t[0] == '-' then
      match ParseUnsigned(t[1..])
      case None => None
      case Some(v) => Some(0 - v)
    else if t != [] && t[0] == '+' then ParseUnsigned(t[1..])
    else ParseUnsigned(t)
  }

  /** `parseInt(s) || 0` where `s` may be missing (`parseInt(undefined)` is `NaN`). */
  function ParseIntOrZero(s: Option<string>): (r: int)
    ensures s.None? ==> r == 0
    ensures s.Some? && ParseInt(s.value).Some? ==> r == ParseInt(s.value).value
    ensures s.Some? && ParseInt(s.value).None? ==> r == 0
  {
    match s
    case None => 0
    case Some(text) => ParseInt(text).GetOr(0)
  }

  /** The decimal digits of a natural number, most significant first. */
  function Digits(n: nat): (d: string)
    ensures |d| >= 1 && AllDigits(d) && DigitsValue(d) == n
  {
    var last := ['0' + (n % 10) as char];
    if n < 10 then last
    else
      var d := Digits(n / 10) + last;
      assert d[..|d| - 1] == Digits(n / 10);
      d
  }

  /** `String(n)`: how a location id is written into a `<select>` value. */
  function DecimalString(n: int): string {
    if n < 0 then "-" + Digits(-n) else Digits(n)
  }

  /** Parsing the decimal form of any integer gives that integer back. */
  lemma {:induction false} ParseDecimalString(n: int)
    ensures ParseInt(DecimalString(n)) == Some(n)
  {
    var s := DecimalString(n);
    if n < 0 {
      var d := Digits(-n);
      NegativeDecimalShape(n);
      NoLeadingSpace(s);
      ParseUnsignedDigits(d);
      ParseNegative(s, -n);
    } else {
      var d := Digits(n);
      NoLeadingSpace(d);
      ParseUnsignedDigits(d);
      ParseNonNegative(d, n);
    }
  }

  lemma NegativeDecimalShape(n: int)
    requires n < 0
    ensures DecimalString(n) != [] && DecimalString(n)[0] == '-' && DecimalString(n)[1..] == Digits(-n)
  {
  }

  lemma NoLeadingSpace(s: string)
    requires s != [] && !IsSpace(s[0])
    ensures TrimStart(s) == s
  {
  }

  lemma ParseUnsignedDigits(d: string)
    requires |d| >= 1 && AllDigits(d)
    ensures ParseUnsigned(d) == Some(DigitsValue(d))
  {
    DigitRunOfDigits(d);
    assert d[..|d|] == d;
  }

  lemma ParseNegative(t: string, v: int)
    requires TrimStart(t) == t && t != [] && t[0] == '-'
    requires ParseUnsigned(t[1..]) == Some(v)
    ensures ParseInt(t) == Some(0 - v)
  {
  }

  lemma ParseNonNegative(t: string, v: int)
    requires TrimStart(t) == t && t != [] && IsDigit(t[0])
    requires ParseUnsigned(t) == Some(v)
    ensures ParseInt(t) == Some(v)
  {
  }

  lemma DigitRunOfDigits(d: string)
    requires AllDigits(d)
    ensures DigitRun(d) == |d|
  {
  }

  /** `parseInt("all")` is `NaN`. */
  lemma AllIsNotANumber()
    ensures ParseInt("all") == None
  {
    assert !IsSpace("all"[0]);
    assert TrimStart("all") == "all";
    assert DigitRun("all") == 0;
  }

  // ---------------------------------------------------------------------------
  // Strings as the client treats dates

  /** `s.split('T')[0]`: everything before the first 'T'. */
  function BeforeT(s: string): (r: string)
    ensures r <= s
    ensures 'T' !in r
    ensures |r| < |s| ==> s[|r|] == 'T'
  {
    if s == [] || s[0] == 'T' then [] else [s[0]] + BeforeT(s[1..])
  }

  /** JavaScript's `a <= b` on strings: lexicographic by character. */
  predicate LexLe(a: string, b: string) {
    if a == [] then true
    else if b == [] then false
    else if a[0] != b[0] then a[0] < b[0]
    else LexLe(a[1..], b[1..])
  }

  /** Lexicographic order is total, so the two date bounds of a filter are
      comparable with every date key. */
  lemma {:induction false} LexLeTotal(a: string, b: string)
    ensures LexLe(a, b) || LexLe(b, a)
  {
    if a != [] && b != [] && a[0] == b[0] {
      LexLeTotal(a[1..], b[1..]);
    }
  }

  lemma {:induction false} LexLeTransitive(a: string, b: string, c: string)
    requires LexLe(a, b) && LexLe(b, c)
    ensures LexLe(a, c)
  {
    if a != [] && b != [] && c != [] && a[0] == b[0] && b[0] == c[0] {
      LexLeTransitive(a[1..], b[1..], c[1..]);
    }
  }
}
