/**
 * The dynamically typed values that flow through the configurer: what a parsed
 * settings file holds (strings, integers, booleans, null, nested mappings) and
 * what ends up assigned on the configuration object (which also holds lists).
 */
module PyValue {
  import opened Wrappers

  datatype Value =
    | VStr(s: string)
    | VInt(i: int)
    | VBool(b: bool)
    | VNull
    | VList(items: seq<Value>)
    | VMap(entries: map<string, Value>)

  /** The value stored under `k`, if any. */
  function Get(m: map<string, Value>, k: string): (r: Option<Value>)
    ensures r.Some? <==> k in m
    ensures r.Some? ==> r.value == m[k]
  {
    if k in m then Some(m[k]) else None
  }

  /** The value under `k` inside `v`; absent when `v` is absent or not a mapping. */
  function Child(v: Option<Value>, k: string): (r: Option<Value>)
    ensures r.Some? <==> v.Some? && v.value.VMap? && k in v.value.entries
    ensures r.Some? ==> r.value == v.value.entries[k]
  {
    match v
    case Some(VMap(entries)) => Get(entries, k)
    case _ => None
  }

  /** The setting `a.b` of a parsed settings document. */
  function Lookup2(m: map<string, Value>, a: string, b: string): Option<Value> {
    Child(Get(m, a), b)
  }

  /** The setting `a.b.c` of a parsed settings document. */
  function Lookup3(m: map<string, Value>, a: string, b: string, c: string): Option<Value> {
    Child(Child(Get(m, a), b), c)
  }

  /** Python truthiness of a value, as an `if` statement tests it. */
  predicate Truthy(v: Value) {
    match v
    case VStr(s) => s != ""
    case VInt(i) => i != 0
    case VBool(b) => b
    case VNull => false
    case VList(items) => items != []
    case VMap(entries) => entries != map[]
  }

  /** The integer a value stands for when formatted with `%d`; booleans are integers in Python. */
  function AsInt(v: Value): (r: Option<int>)
    ensures r.Some? <==> v.VInt? || v.VBool?
    ensures v.VInt? ==> r == Some(v.i)
    ensures v.VBool? ==> r == Some(if v.b then 1 else 0)
  {
    match v
    case VInt(i) => Some(i)
    case VBool(b) => Some(if b then 1 else 0)
    case _ => None
  }
}
