/** Values shared by both sides of the relay: optional values, the outcome of a call into
    code outside the model, decoded JSON, and the few string facts the contracts need. */
module Common {

  datatype Option<+T> = None | Some(value: T)

  /** What a call into code the model does not contain yields: a value, or an exception
      carrying its message. */
  datatype Attempt<+T> = Done(value: T) | Raised(message: string)

  /** A decoded JSON document, as JSON.parse (TypeScript) or json.loads (Python) returns it.
      Numbers are integers; objects map each key to its last value. */
  datatype Json =
    | JNull
    | JBool(b: bool)
    | JNum(n: int)
    | JStr(s: string)
    | JArr(items: seq<Json>)
    | JObj(fields: map<string, Json>)

  /** The empty JSON object `{}`. */
  const EmptyObject: Json := JObj(map[])

  /** `dict.get(key)` on a decoded object: the value, or `None` (JSON null) when absent. */
  function Get(m: map<string, Json>, key: string): (v: Json)
    ensures key in m ==> v == m[key]
    ensures key !in m ==> v == JNull
  {
    if key in m then m[key] else JNull
  }

  /** Python truthiness of a decoded JSON value (`if arguments:`, `x or {}`). */
  predicate Truthy(j: Json) {
    match j
    case JNull => false
    case JBool(b) => b
    case JNum(n) => n != 0
    case JStr(s) => s != ""
    case JArr(xs) => xs != []
    case JObj(m) => m != map[]
  }

  predicate StartsWith(s: string, prefix: string) {
    |prefix| <= |s| && s[..|prefix|] == prefix
  }

  predicate EndsWith(s: string, suffix: string) {
    |suffix| <= |s| && s[|s| - |suffix|..] == suffix
  }

  lemma StartsWithAppend(prefix: string, rest: string)
    ensures StartsWith(prefix + rest, prefix)
  {
    assert (prefix + rest)[..|prefix|] == prefix;
  }

  predicate NoDuplicates<T(==)>(s: seq<T>) {
    forall i, j :: 0 <= i < j < |s| ==> s[i] != s[j]
  }

  /** Index of the first occurrence of `c` in `s`, or `|s|` when there is none. */
  function IndexOf(s: string, c: char): (i: nat)
    ensures i <= |s|
    ensures i < |s| ==> s[i] == c
    ensures forall k :: 0 <= k < i ==> s[k] != c
  {
    if s == [] then 0
    else if s[0] == c then 0
    else 1 + IndexOf(s[1..], c)
  }

  lemma IndexOfAt(s: string, c: char, i: nat)
    requires i <= |s|
    requires i < |s| ==> s[i] == c
    requires forall k :: 0 <= k < i ==> s[k] != c
    ensures IndexOf(s, c) == i
  {
  }
}
