/** A decoded JSON value as Python's json module hands it over, with the
    two dictionary operations the bot relies on: `dict.get` and the text a
    value becomes inside an f-string. */
module Json {
  import opened Decimal

  /** An object keeps its members in document order, as a Python dict does. */
  datatype Json =
    | JNull
    | JBool(b: bool)
    | JNum(n: int)
    | JStr(s: string)
    | JList(items: seq<Json>)
    | JObject(fields: seq<(string, Json)>)

  /** `d.get(key)`: the value stored under `key`, or JNull (Python's None)
      when there is none. A stored null and a missing key look the same. */
  function Get(fields: seq<(string, Json)>, key: string): (v: Json)
    ensures v != JNull ==> exists i :: 0 <= i < |fields| && fields[i] == (key, v)
    ensures (forall i :: 0 <= i < |fields| ==> fields[i].0 != key) ==> v == JNull
    ensures forall i :: (0 <= i < |fields| && fields[i].0 == key &&
                         forall j :: 0 <= j < i ==> fields[j].0 != key) ==> v == fields[i].1
  {
    if fields == [] then JNull
    else if fields[0].0 == key then fields[0].1
    else Get(fields[1..], key)
  }

  /** Every key appears once, as in the dict `json.loads` builds. */
  predicate DistinctKeys(fields: seq<(string, Json)>) {
    forall i, j :: 0 <= i < j < |fields| ==> fields[i].0 != fields[j].0
  }

  /** On a real dict, `get` of a stored key is the one value stored under it. */
  lemma GetOfDistinctKeys(fields: seq<(string, Json)>, i: nat)
    requires DistinctKeys(fields) && i < |fields|
    ensures Get(fields, fields[i].0) == fields[i].1
  {
  }

  /** `type(v).__name__` of the Python value a JSON value decodes to. */
  function TypeName(v: Json): string {
    match v
    case JNull => "NoneType"
    case JBool(_) => "bool"
    case JNum(_) => "int"
    case JStr(_) => "str"
    case JList(_) => "list"
    case JObject(_) => "dict"
  }

  function Join(parts: seq<string>): string {
    if |parts| == 0 then ""
    else if |parts| == 1 then parts[0]
    else parts[0] + ", " + Join(parts[1..])
  }

  /** `repr(v)`; nested strings are quoted with single quotes. */
  function Repr(v: Json): string
    decreases v
  {
    match v
    case JNull => "None"
    case JBool(b) => if b then "True" else "False"
    case JNum(n) => IntToString(n)
    case JStr(s) => "'" + s + "'"
    case JList(items) =>
      "[" + Join(seq(|items|, i requires 0 <= i < |items| => Repr(items[i]))) + "]"
    case JObject(fields) =>
      "{" + Join(seq(|fields|, i requires 0 <= i < |fields| =>
                       "'" + fields[i].0 + "': " + Repr(fields[i].1))) + "}"
  }

  /** `str(v)`, the text an f-string inserts: a string as it is, anything
      else as its repr. */
  function Str(v: Json): string {
    if v.JStr? then v.s else Repr(v)
  }
}
