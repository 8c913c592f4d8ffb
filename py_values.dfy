/** The Python values the bot handles: what `response.json()` builds from a
    JSON body, and the few built-in operations the bot applies to them. */
module PyValues {
  import opened Wrappers

  /** A decoded JSON value: `None`, a bool, an int, a str, a list or a dict
      (JSON object keys are always strings). */
  datatype Value =
    | VNone
    | VBool(b: bool)
    | VInt(n: int)
    | VStr(s: string)
    | VList(items: seq<Value>)
    | VDict(entries: map<string, Value>)

  /** `type(v).__name__` */
  function TypeName(v: Value): string
  {
    match v
    case VNone => "NoneType"
    case VBool(_) => "bool"
    case VInt(_) => "int"
    case VStr(_) => "str"
    case VList(_) => "list"
    case VDict(_) => "dict"
  }

  /** Only lists and dicts among these values are unhashable. */
  predicate Hashable(v: Value)
  {
    !v.VList? && !v.VDict?
  }

  /** `part in s` for two str values: a substring test. */
  predicate Contains(s: string, part: string)
    decreases |s|
  {
    (|part| <= |s| && s[..|part|] == part) || (|s| > 0 && Contains(s[1..], part))
  }

  /** `key in v` for a str `key`: `None` stands for the TypeError Python raises
      when `v` is not a container. */
  function Membership(key: string, v: Value): (r: Option<bool>)
    ensures r.None? <==> v.VNone? || v.VBool? || v.VInt?
    ensures v.VDict? ==> r == Some(key in v.entries)
  {
    match v
    case VDict(entries) => Some(key in entries)
    case VStr(s) => Some(Contains(s, key))
    case VList(items) => Some(VStr(key) in items)
    case _ => None
  }

  predicate IsDigit(c: char)
  {
    '0' <= c <= '9'
  }

  /** The number a string of decimal digits spells, read left to right. */
  function DigitsValue(r: string): int
    requires forall i :: 0 <= i < |r| ==> IsDigit(r[i])
  {
    if r == [] then 0
    else DigitsValue(r[..|r| - 1]) * 10 + (r[|r| - 1] as int - '0' as int)
  }

  /** What `int(r)` gives for a canonical decimal text: an optional '-'
      followed by digits. */
  function IntValue(r: string): int
    requires 0 < |r| && forall i :: 0 < i < |r| ==> IsDigit(r[i])
    requires r[0] == '-' || IsDigit(r[0])
  {
    if r[0] == '-' then -DigitsValue(r[1..]) else DigitsValue(r)
  }

  /** The decimal digits of `n`, without leading zeros. */
  function DigitsText(n: nat): (r: string)
    ensures |r| > 0 && forall i :: 0 <= i < |r| ==> IsDigit(r[i])
    ensures DigitsValue(r) == n
    ensures r[0] == '0' <==> n == 0
    ensures |r| > 1 ==> r[0] != '0'
    decreases n
  {
    var d := "0123456789"[n % 10];
    assert d as int - '0' as int == n % 10;
    if n < 10 then [d]
    else
      var r := DigitsText(n / 10) + [d];
      assert r[..|r| - 1] == DigitsText(n / 10);
      r
  }

  /** `str(n)` for an int: the canonical decimal text that reads back as `n`. */
  function IntText(n: int): (r: string)
    ensures 0 < |r| && (r[0] == '-' <==> n < 0)
    ensures forall i :: 0 < i < |r| ==> IsDigit(r[i])
    ensures (r[0] == '-' || IsDigit(r[0])) && IntValue(r) == n
    ensures n < 0 ==> 1 < |r| && r[1] != '0'
    ensures n >= 0 && 1 < |r| ==> r[0] != '0'
  {
    if n < 0 then
      var r := "-" + DigitsText(-n);
      assert r[1..] == DigitsText(-n);
      r
    else DigitsText(n)
  }

  /** `str(v)`, which is what an f-string inserts for `{v}`; a list or a dict
      is shown by a placeholder instead of its repr. */
  function Display(v: Value): (r: string)
    ensures v.VStr? ==> r == v.s
    ensures v.VNone? ==> r == "None"
    ensures v.VBool? ==> r == (if v.b then "True" else "False")
    ensures v.VInt? ==> r == IntText(v.n)
  {
    match v
    case VNone => "None"
    case VBool(b) => if b then "True" else "False"
    case VInt(n) => IntText(n)
    case VStr(s) => s
    case VList(_) => "[...]"
    case VDict(_) => "{...}"
  }
}
