/**
 * An already-parsed JSON document, as `json.load`/`json.loads` hand it to the
 * routes, together with the two Python operations the routes apply to such
 * values: truthiness (`x or y`, `if x`) and `str(x)`.
 */
module Json {
  import opened Wrappers
  import opened Text

  datatype Json =
    | JNull
    | JBool(b: bool)
    | JInt(i: int)
    | JStr(s: string)
    | JArr(items: seq<Json>)
    | JObj(fields: map<string, Json>)

  /** Python truthiness: `None`, `False`, `0` and empty strings, lists and dicts are false. */
  predicate Truthy(v: Json)
  {
    match v
    case JNull => false
    case JBool(b) => b
    case JInt(i) => i != 0
    case JStr(s) => s != []
    case JArr(xs) => xs != []
    case JObj(m) => m != map[]
  }

  /** The value under `key`, or `default` when the key is missing. */
  function GetOr(m: map<string, Json>, key: string, default: Json): Json
  {
    if key in m then m[key] else default
  }

  /** The value under `key`, or null when the key is missing. */
  function Get(m: map<string, Json>, key: string): Json
  {
    GetOr(m, key, JNull)
  }

  /** The text of an integer, with its sign. */
  function IntText(i: int): string
  {
    if i < 0 then "-" + Decimal(-i) else Decimal(i)
  }

  /** Python's `str(v)`; lists and dicts render as a fixed bracketed placeholder. */
  function Str(v: Json): string
  {
    match v
    case JNull => "None"
    case JBool(b) => if b then "True" else "False"
    case JInt(i) => IntText(i)
    case JStr(s) => s
    case JArr(_) => "[...]"
    case JObj(_) => "{...}"
  }

  /** `str()` of a value that is not a string is never blank, so it survives `strip()` whole. */
  lemma StrOfNonString(v: Json)
    requires !v.JStr?
    ensures Str(v) != "" && Trim(Str(v)) == Str(v)
  {
    var r := Str(v);
    assert r != [] && !IsSpace(r[0]) && !IsSpace(r[|r| - 1]) by {
      if v.JInt? {
        var d := Decimal(if v.i < 0 then -v.i else v.i);
        assert '0' <= d[0] <= '9' && '0' <= d[|d| - 1] <= '9';
      }
    }
    TrimFixed(r);
  }
}
