/**
 * Decoded JSON values as the Python scripts see them (the result of
 * `json.load`), and the handful of Python operations the scripts apply to
 * them: truthiness, `dict.get`, iteration, `in`, `==` across int/float/bool,
 * `x / 10.0`, `str(x)` and `str.lower()`.
 */
module PyJson {
  import opened Wrappers

  datatype Json =
    | JNull
    | JBool(b: bool)
    | JInt(i: int)
    | JFloat(r: real)
    | JStr(s: string)
    | JArr(items: seq<Json>)
    | JObj(fields: map<string, Json>)

  /** A decoded JSON object; its keys are always strings. */
  type Dict = map<string, Json>

  /** Python's `bool(x)` for a decoded JSON value. */
  predicate Truthy(j: Json) {
    match j
    case JNull => false
    case JBool(b) => b
    case JInt(i) => i != 0
    case JFloat(r) => r != 0.0
    case JStr(s) => s != ""
    case JArr(xs) => xs != []
    case JObj(m) => m != map[]
  }

  /** `d.get(key, default)`. */
  function Get(d: Dict, key: string, default: Json): Json {
    if key in d then d[key] else default
  }

  /**
   * The items seen by a loop `for x in j:` whose body starts with `x.get(...)`:
   * a list of dicts gives its items; an empty dict or string gives nothing;
   * anything else raises (a non-dict item has no `.get`, a non-empty dict or
   * string yields `str` items, and None, numbers and booleans are not iterable).
   */
  function IterDicts(j: Json): Option<seq<Dict>> {
    match j
    case JArr(xs) =>
      if forall k :: 0 <= k < |xs| ==> xs[k].JObj? then
        Some(seq(|xs|, k requires 0 <= k < |xs| => xs[k].fields))
      else None
    case JObj(m) => if m == map[] then Some([]) else None
    case JStr(s) => if s == "" then Some([]) else None
    case _ => None
  }

  /** The numeric value Python arithmetic and `==` see: bool is a subclass of int. */
  function AsNumber(j: Json): Option<real> {
    match j
    case JInt(i) => Some(i as real)
    case JFloat(r) => Some(r)
    case JBool(b) => Some(if b then 1.0 else 0.0)
    case _ => None
  }

  /**
   * The representative of `j` under Python's `==` and hashing for scalars:
   * `1`, `1.0` and `True` are the same dict key and compare equal.
   */
  function Canon(j: Json): Json {
    if AsNumber(j).Some? then JFloat(AsNumber(j).value) else j
  }

  /** Python `a == b` for scalars; containers are compared as they are, without coercing the numbers inside them. */
  predicate PyEq(a: Json, b: Json) {
    Canon(a) == Canon(b)
  }

  /** Python `j == n` for an int `n` taken from the command line. */
  predicate EqualsInt(j: Json, n: int) {
    Canon(j) == JFloat(n as real)
  }

  /** `j in ns` for a list of ints `ns`. */
  predicate InInts(j: Json, ns: seq<int>) {
    exists k :: 0 <= k < |ns| && EqualsInt(j, ns[k])
  }

  /** Only lists and dicts are unhashable among decoded JSON values. */
  predicate Hashable(j: Json) {
    !j.JArr? && !j.JObj?
  }

  /** `m.get(k, default)` on a dict whose keys are JSON values; None when `k` is unhashable. */
  function Lookup(m: map<Json, Json>, k: Json, default: Json): Option<Json> {
    if !Hashable(k) then None
    else if Canon(k) in m then Some(m[Canon(k)])
    else Some(default)
  }

  /** `j / 10.0`; None when Python raises TypeError. */
  function Div10(j: Json): Option<real> {
    match AsNumber(j)
    case Some(x) => Some(x / 10.0)
    case None => None
  }

  /** Python's `container` test `key in j` for a string key; None when it raises. */
  function PyContains(j: Json, key: string): Option<bool> {
    match j
    case JObj(m) => Some(key in m)
    case JArr(xs) => Some(JStr(key) in xs)
    case JStr(s) => Some(IsSubstring(key, s))
    case _ => None
  }

  predicate IsSubstring(sub: string, s: string) {
    exists i :: 0 <= i <= |s| && sub <= s[i..]
  }

  /** `str(j)` for the values the scripts format; floats and containers are not rendered. */
  function Str(j: Json): string {
    match j
    case JNull => "None"
    case JBool(b) => if b then "True" else "False"
    case JInt(i) => IntToString(i)
    case JStr(s) => s
    case _ => "<unrendered>"
  }

  /** `c.isspace()`: Python's whitespace table, which `\s` in a `str` pattern also uses. */
  predicate IsPySpace(c: char) {
    || ('\t' <= c <= '\r')
    || ('\U{001C}' <= c <= '\U{001F}')
    || c == ' ' || c == '\U{0085}' || c == '\U{00A0}' || c == '\U{1680}'
    || ('\U{2000}' <= c <= '\U{200A}')
    || c == '\U{2028}' || c == '\U{2029}' || c == '\U{202F}' || c == '\U{205F}' || c == '\U{3000}'
  }

  /** `s.lstrip()`. */
  function StripStart(s: string): (r: string)
    ensures |r| <= |s| && r == s[|s| - |r|..]
    ensures r == [] || !IsPySpace(r[0])
    ensures forall i :: 0 <= i < |s| - |r| ==> IsPySpace(s[i])
    decreases |s|
  {
    if s != [] && IsPySpace(s[0]) then StripStart(s[1..]) else s
  }

  /** `s.rstrip()`. */
  function StripEnd(s: string): (r: string)
    ensures |r| <= |s| && r == s[..|r|]
    ensures r == [] || !IsPySpace(r[|r| - 1])
    ensures forall i :: |r| <= i < |s| ==> IsPySpace(s[i])
    decreases |s|
  {
    if s != [] && IsPySpace(s[|s| - 1]) then StripEnd(s[..|s| - 1]) else s
  }

  /** `s.strip()`: the input less its leading and trailing whitespace, so neither end of the result is whitespace. */
  function Strip(s: string): (r: string)
    ensures |r| <= |s|
    ensures r == [] || (!IsPySpace(r[0]) && !IsPySpace(r[|r| - 1]))
    ensures (s == [] || (!IsPySpace(s[0]) && !IsPySpace(s[|s| - 1]))) ==> r == s
    ensures exists i, j :: OuterSpace(s, i, j) && r == s[i..j]
  {
    var t := StripStart(s);
    var r := StripEnd(t);
    StripIsSlice(s, t, r);
    r
  }

  /** `s[i..j]` is `s` less the whitespace in front of `i` and from `j` on. */
  predicate OuterSpace(s: string, i: int, j: int) {
    && 0 <= i <= j <= |s|
    && (forall k :: 0 <= k < i ==> IsPySpace(s[k]))
    && (forall k :: j <= k < |s| ==> IsPySpace(s[k]))
  }

  lemma StripIsSlice(s: string, t: string, r: string)
    requires |t| <= |s| && t == s[|s| - |t|..] && forall k :: 0 <= k < |s| - |t| ==> IsPySpace(s[k])
    requires |r| <= |t| && r == t[..|r|] && forall k :: |r| <= k < |t| ==> IsPySpace(t[k])
    ensures exists i, j :: OuterSpace(s, i, j) && r == s[i..j]
  {
    var i := |s| - |t|;
    assert forall k :: i <= k < |s| ==> s[k] == t[k - i];
    assert r == s[i..i + |r|];
    assert OuterSpace(s, i, i + |r|);
  }

  function LowerChar(c: char): char {
    if 'A' <= c <= 'Z' then (c as int + 32) as char else c
  }

  /** `s.lower()` on ASCII letters. */
  function Lower(s: string): (r: string)
    ensures |r| == |s|
  {
    seq(|s|, k requires 0 <= k < |s| => LowerChar(s[k]))
  }

  predicate IsDigit(c: char) {
    '0' <= c <= '9'
  }

  function DigitChar(d: nat): char
    requires d < 10
  {
    ('0' as int + d) as char
  }

  /** `str(n)` for a non-negative int. */
  function NatToString(n: nat): string
    decreases n
  {
    if n < 10 then [DigitChar(n)] else NatToString(n / 10) + [DigitChar(n % 10)]
  }

  /** `str(i)` for an int. */
  function IntToString(i: int): string {
    if i < 0 then "-" + NatToString(-i) else NatToString(i)
  }

  /** `int(s)` for a string of ASCII digits. */
  function DigitsValue(s: string): nat
    requires forall k :: 0 <= k < |s| ==> IsDigit(s[k])
  {
    if s == [] then 0
    else DigitsValue(s[..|s| - 1]) * 10 + DigitValue(s[|s| - 1])
  }

  function DigitValue(c: char): nat
    requires IsDigit(c)
  {
    c as int - '0' as int
  }

  predicate AllDigits(s: string) {
    forall k :: 0 <= k < |s| ==> IsDigit(s[k])
  }

  /** `int(s)` for an optional minus sign followed by digits. */
  function ParseInt(s: string): int
    requires s != [] && (s[0] == '-' ==> AllDigits(s[1..])) && (s[0] != '-' ==> AllDigits(s))
  {
    if s[0] == '-' then 0 - DigitsValue(s[1..]) else DigitsValue(s)
  }

  lemma {:induction false} NatToStringDigits(n: nat)
    ensures NatToString(n) != [] && AllDigits(NatToString(n))
    ensures DigitsValue(NatToString(n)) == n
    decreases n
  {
    if n >= 10 {
      NatToStringDigits(n / 10);
      var s := NatToString(n);
      assert s[..|s| - 1] == NatToString(n / 10);
    }
  }

  /** `int(str(i)) == i`: the rendering of an int is decodable. */
  lemma IntToStringRoundTrip(i: int)
    ensures var s := IntToString(i);
      s != [] && (s[0] == '-' ==> AllDigits(s[1..])) && (s[0] != '-' ==> AllDigits(s)) && ParseInt(s) == i
  {
    if i < 0 {
      NatToStringDigits(-i);
      assert IntToString(i)[1..] == NatToString(-i);
    } else {
      NatToStringDigits(i);
    }
  }

  /** Every character of `str(i)` after the first is a digit. */
  lemma IntToStringShape(i: int)
    ensures IntToString(i) != []
    ensures forall k :: 1 <= k < |IntToString(i)| ==> IsDigit(IntToString(i)[k])
    ensures i >= 0 ==> AllDigits(IntToString(i))
  {
    if i < 0 {
      NatToStringDigits(-i);
      assert forall k :: 1 <= k < |IntToString(i)| ==> IntToString(i)[k] == NatToString(-i)[k - 1];
    } else {
      NatToStringDigits(i);
    }
  }

  /**
   * A rendered int followed by text that does not continue the digits can be
   * split back uniquely: the basis of every "distinct ids give distinct cache
   * keys" fact below.
   */
  lemma IntToStringSplit(a: int, b: int, x: string, y: string)
    requires IntToString(a) + x == IntToString(b) + y
    requires x == [] || !IsDigit(x[0])
    requires y == [] || !IsDigit(y[0])
    ensures a == b && x == y
  {
    var sa, sb := IntToString(a), IntToString(b);
    RenderedIntEnd(a, x);
    RenderedIntEnd(b, y);
    assert sa == (sa + x)[..|sa|] == (sb + y)[..|sb|] == sb;
    IntToStringRoundTrip(a);
    IntToStringRoundTrip(b);
  }

  /** The first index at or after `k` that does not hold a digit. */
  function DigitRunEnd(t: string, k: nat): (p: nat)
    requires k <= |t|
    ensures k <= p <= |t|
    decreases |t| - k
  {
    if k == |t| || !IsDigit(t[k]) then k else DigitRunEnd(t, k + 1)
  }

  lemma {:induction false} DigitRunEndAt(t: string, k: nat, p: nat)
    requires k <= p <= |t|
    requires forall i :: k <= i < p ==> IsDigit(t[i])
    requires p == |t| || !IsDigit(t[p])
    ensures DigitRunEnd(t, k) == p
    decreases p - k
  {
    if k < p {
      DigitRunEndAt(t, k + 1, p);
    }
  }

  /** In `str(i) + x`, the digits that follow the first character end exactly where `x` starts. */
  lemma RenderedIntEnd(i: int, x: string)
    requires x == [] || !IsDigit(x[0])
    ensures DigitRunEnd(IntToString(i) + x, 1) == |IntToString(i)|
  {
    IntToStringShape(i);
    var t := IntToString(i) + x;
    assert forall k :: 1 <= k < |IntToString(i)| ==> t[k] == IntToString(i)[k];
    DigitRunEndAt(t, 1, |IntToString(i)|);
  }

  /** `str(i)` determines `i`. */
  lemma IntToStringInjective(a: int, b: int)
    requires IntToString(a) == IntToString(b)
    ensures a == b
  {
    IntToStringRoundTrip(a);
    IntToStringRoundTrip(b);
  }

  /** Text framed by the same prefix and suffix determines what lies between. */
  lemma AffixCancel(p: string, a: string, b: string, q: string)
    requires p + a + q == p + b + q
    ensures a == b
  {
    var s := p + a + q;
    assert a == s[|p|..|p| + |a|];
  }
}
