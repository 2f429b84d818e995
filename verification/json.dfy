/**
 * JSON values as the Python service handles them: the results of
 * `response.json()`, the request payloads and the dictionaries the mappers
 * build. Python's truthiness, `dict.get`, iteration, `len` and `str()` are
 * written out here because the mappers branch on them.
 */
module Json {

  datatype Option<+T> = None | Some(value: T)

  /** A JSON value. Objects are maps: the insertion order of a Python dict is not kept. */
  datatype Json =
    | Null
    | Bool(b: bool)
    | Int(i: int)
    | Str(s: string)
    | Arr(items: seq<Json>)
    | Obj(fields: map<string, Json>)

  type Dict = map<string, Json>

  /** Python's `bool(x)`: None, False, 0, "", [] and {} are falsy. */
  predicate Truthy(j: Json) {
    match j
    case Null => false
    case Bool(b) => b
    case Int(i) => i != 0
    case Str(s) => s != []
    case Arr(a) => a != []
    case Obj(m) => m != map[]
  }

  /** Python's `d.get(k, default)`; `d.get(k)` is `Get(d, k, Null)`. */
  function Get(d: Dict, k: string, default: Json): Json {
    if k in d then d[k] else default
  }

  /** The key set of a dict that gets key `k` only when `present`: `if present: d[k] = ...`. */
  function KeyIf(present: bool, k: string): (ks: set<string>)
    ensures k in ks <==> present
  {
    if present then {k} else {}
  }

  /** One character as the one-character Python string that iterating a str yields. */
  function CharStr(s: string, i: nat): Json
    requires i < |s|
  {
    Str([s[i]])
  }

  /**
   * The elements `for x in j` visits, or None where the model does not give them:
   * None, booleans and integers are not iterable in Python (TypeError), and a
   * non-empty dict yields its keys in insertion order, which a map does not keep.
   */
  function PyIter(j: Json): (r: Option<seq<Json>>)
    ensures j.Arr? ==> r == Some(j.items)
    ensures j.Str? ==> r.Some? && |r.value| == |j.s|
    ensures r.Some? ==> (|r.value| > 0 <==> Truthy(j))
  {
    match j
    case Arr(a) => Some(a)
    case Str(s) => Some(seq(|s|, i requires 0 <= i < |s| => CharStr(s, i)))
    case Obj(m) => if m == map[] then Some([]) else None
    case _ => None
  }

  /** Whether `k` occurs in `t` as a contiguous piece, as `k in t` tests for two strings. */
  predicate HasSubstring(t: string, k: string)
    decreases |t|
  {
    |k| <= |t| && (t[..|k|] == k || HasSubstring(t[1..], k))
  }

  /**
   * Python's `k in j` for a string `k`: a key of a dict, an element of a list,
   * a substring of a string; None where `in` raises TypeError.
   */
  function PyIn(k: string, j: Json): (r: Option<bool>)
    ensures r.Some? <==> (j.Obj? || j.Arr? || j.Str?)
    ensures j.Obj? ==> r == Some(k in j.fields)
  {
    match j
    case Obj(m) => Some(k in m)
    case Arr(a) => Some(Str(k) in a)
    case Str(t) => Some(HasSubstring(t, k))
    case _ => None
  }

  /** Python's `len(j)`, or None where `len` raises TypeError. */
  function PyLen(j: Json): (r: Option<int>)
    ensures r.Some? <==> (j.Str? || j.Arr? || j.Obj?)
    ensures r.Some? ==> r.value >= 0 && (r.value > 0 <==> Truthy(j))
  {
    match j
    case Str(s) => Some(|s|)
    case Arr(a) => Some(|a|)
    case Obj(m) => Some(|m.Keys|)
    case _ => None
  }

  /** The decimal digits of a natural number, most significant first. */
  function NatToString(n: nat): (s: string)
    ensures |s| > 0
  {
    if n < 10 then [DigitChar(n)] else NatToString(n / 10) + [DigitChar(n % 10)]
  }

  function DigitChar(d: nat): (c: char)
    requires d < 10
    ensures '0' <= c <= '9'
  {
    ('0' as int + d) as char
  }

  /** Python's `str(i)` for an int. */
  function IntToString(i: int): string {
    if i < 0 then "-" + NatToString(-i) else NatToString(i)
  }

  /**
   * Python's `str(j)`, as an f-string renders a value. Lists and dicts are
   * rendered as placeholders, not as their Python repr.
   */
  function PyStr(j: Json): string {
    match j
    case Null => "None"
    case Bool(b) => if b then "True" else "False"
    case Int(i) => IntToString(i)
    case Str(s) => s
    case Arr(_) => "[...]"
    case Obj(_) => "{...}"
  }
}
