/** Python values as `json.loads` produces them, and the parts of Python's
    behaviour on them that the core depends on: truthiness, `str()`, dict
    lookups, and the texts of the exceptions that subscripting or attribute
    access raise (CPython 3.11 wording). */
module PyValue {
  import opened Wrappers
  import opened Text

  /** A decoded JSON value. `JNull` is Python's `None`; a `JObj` is a dict,
      kept as its entries in insertion order. JSON numbers are integers here. */
  datatype Json =
    | JNull
    | JBool(b: bool)
    | JNum(n: int)
    | JStr(s: string)
    | JArr(items: seq<Json>)
    | JObj(fields: seq<Field>)

  datatype Field = Field(key: string, value: Json)

  /** `d.get(key)` on a dict: the value stored under `key`, if there is one. */
  function Get(fields: seq<Field>, key: string): (r: Option<Json>)
    ensures r.Some? <==> exists i :: 0 <= i < |fields| && fields[i].key == key
    ensures r.Some? ==> exists i :: 0 <= i < |fields| && fields[i] == Field(key, r.value)
  {
    if fields == [] then None
    else if fields[0].key == key then Some(fields[0].value)
    else
      var r := Get(fields[1..], key);
      assert forall i :: 1 <= i < |fields| ==> fields[i] == fields[1..][i - 1];
      r
  }

  /** `d.get(key, default)`. */
  function GetOr(fields: seq<Field>, key: string, default: Json): Json {
    match Get(fields, key)
    case Some(v) => v
    case None => default
  }

  /** Python's `bool(v)`: `None`, `False`, `0`, `""`, `[]` and `{}` are false. */
  predicate Truthy(v: Json) {
    match v
    case JNull => false
    case JBool(b) => b
    case JNum(n) => n != 0
    case JStr(s) => s != ""
    case JArr(items) => items != []
    case JObj(fields) => fields != []
  }

  /** `type(v).__name__`. */
  function TypeName(v: Json): string {
    match v
    case JNull => "NoneType"
    case JBool(_) => "bool"
    case JNum(_) => "int"
    case JStr(_) => "str"
    case JArr(_) => "list"
    case JObj(_) => "dict"
  }

  /** Python's `repr(v)`; strings are quoted with `'` and not escaped. */
  function Repr(v: Json): string
    decreases v, 1
  {
    match v
    case JNull => "None"
    case JBool(b) => if b then "True" else "False"
    case JNum(n) => ShowInt(n)
    case JStr(s) => "'" + s + "'"
    case JArr(items) => "[" + ReprItems(items, v) + "]"
    case JObj(fields) => "{" + ReprFields(fields, v) + "}"
  }

  function ReprItems(items: seq<Json>, ghost whole: Json): string
    requires forall i :: 0 <= i < |items| ==> items[i] < whole
    decreases whole, 0, |items|
  {
    if items == [] then ""
    else if |items| == 1 then Repr(items[0])
    else Repr(items[0]) + ", " + ReprItems(items[1..], whole)
  }

  function ReprFields(fields: seq<Field>, ghost whole: Json): string
    requires forall i :: 0 <= i < |fields| ==> fields[i].value < whole
    decreases whole, 0, |fields|
  {
    if fields == [] then ""
    else
      var entry := "'" + fields[0].key + "': " + Repr(fields[0].value);
      if |fields| == 1 then entry else entry + ", " + ReprFields(fields[1..], whole)
  }

  /** Python's `str(v)`, which is `repr(v)` except for strings. */
  function Str(v: Json): string {
    if v.JStr? then v.s else Repr(v)
  }

  /** The text of the exception `v[key]` raises for a string `key` that `v`
      cannot supply: a `KeyError` for a dict, a `TypeError` otherwise. */
  function SubscriptError(v: Json, key: string): string {
    match v
    case JObj(_) => Repr(JStr(key))
    case JArr(_) => "list indices must be integers or slices, not str"
    case JStr(_) => "string indices must be integers, not 'str'"
    case _ => "'" + TypeName(v) + "' object is not subscriptable"
  }

  /** Python's `v[key]` for a string key: the value, or the exception raised. */
  function Subscript(v: Json, key: string): (r: Result<Json, string>)
    ensures r.Success? <==> v.JObj? && Get(v.fields, key).Some?
    ensures r.Success? ==> r.value == Get(v.fields, key).value
    ensures r.Failure? ==> r.error == SubscriptError(v, key)
  {
    if v.JObj? && Get(v.fields, key).Some? then Success(Get(v.fields, key).value)
    else Failure(SubscriptError(v, key))
  }

  /** The text of the `AttributeError` raised by `v.attr` for an attribute `v` lacks. */
  function AttributeError(v: Json, attr: string): string {
    "'" + TypeName(v) + "' object has no attribute '" + attr + "'"
  }

  /** Lists and dicts cannot be dict keys; the text of the `TypeError` raised
      when one is looked up. */
  predicate Hashable(v: Json) {
    !v.JArr? && !v.JObj?
  }

  function UnhashableError(v: Json): string {
    "unhashable type: '" + TypeName(v) + "'"
  }
}
