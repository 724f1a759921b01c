/** The untyped values (`any`) that the client receives from the workflow and
    the relays receive as events and HTTP bodies: what JSON can carry, plus
    `undefined` for a property that is missing. Numbers are integers. An
    object is the list of its own enumerable properties in enumeration order. */
module JsValue {
  import opened JsString

  datatype Json =
    | Undefined
    | Null
    | Bool(b: bool)
    | Num(n: int)
    | Str(s: string)
    | Arr(items: seq<Json>)
    | Obj(fields: seq<(string, Json)>)

  /** JavaScript truthiness: `undefined`, `null`, `false`, `0` and `''` are falsy. */
  predicate Truthy(v: Json) {
    match v
    case Undefined => false
    case Null => false
    case Bool(b) => b
    case Num(n) => n != 0
    case Str(s) => s != ""
    case Arr(_) => true
    case Obj(_) => true
  }

  /** The values `??` and `?.` treat as absent. */
  predicate Nullish(v: Json) {
    v.Undefined? || v.Null?
  }

  /** `a || b` */
  function Or(a: Json, b: Json): Json {
    if Truthy(a) then a else b
  }

  /** `a ?? b` */
  function Coalesce(a: Json, b: Json): Json {
    if Nullish(a) then b else a
  }

  /** The own enumerable properties of `v`, in the order `for...in` and object
      spread visit them: an object's fields, an array's indices, a string's
      character positions; a primitive has none. */
  function OwnEntries(v: Json): seq<(string, Json)> {
    match v
    case Obj(fields) => fields
    case Arr(items) => seq(|items|, i requires 0 <= i < |items| => (IntToString(i), items[i]))
    case Str(s) => seq(|s|, i requires 0 <= i < |s| => (IntToString(i), Str([s[i]])))
    case _ => []
  }

  /** The value stored under `key`, or `undefined`. */
  function Lookup(fields: seq<(string, Json)>, key: string): (r: Json)
    ensures r != Undefined ==> exists i :: 0 <= i < |fields| && fields[i] == (key, r)
  {
    if fields == [] then Undefined
    else if fields[0].0 == key then fields[0].1
    else Lookup(fields[1..], key)
  }

  /** `v?.[key]` for a key that names no built-in property of strings, arrays
      or objects (every key the program reads is of that kind). */
  function Get(v: Json, key: string): Json {
    Lookup(OwnEntries(v), key)
  }

  function Keys(fields: seq<(string, Json)>): (r: seq<string>)
    ensures |r| == |fields|
    ensures forall i :: 0 <= i < |fields| ==> r[i] == fields[i].0
  {
    if fields == [] then [] else [fields[0].0] + Keys(fields[1..])
  }

  /** No key occurs twice: what every JavaScript object satisfies. */
  predicate DistinctKeys(fields: seq<(string, Json)>) {
    forall i, j :: 0 <= i < j < |fields| ==> fields[i].0 != fields[j].0
  }

  /** `obj[key] = value`: overwrites the property in place when it exists,
      otherwise appends it. */
  function Assign(fields: seq<(string, Json)>, key: string, value: Json): (r: seq<(string, Json)>)
    ensures Lookup(r, key) == value
    ensures forall k :: k != key ==> Lookup(r, k) == Lookup(fields, k)
    ensures Keys(r) == if key in Keys(fields) then Keys(fields) else Keys(fields) + [key]
  {
    if fields == [] then [(key, value)]
    else if fields[0].0 == key then [(key, value)] + fields[1..]
    else [fields[0]] + Assign(fields[1..], key, value)
  }

  /** The object rest of `const { key, ...rest } = obj`: every property but `key`. */
  function Without(fields: seq<(string, Json)>, key: string): (r: seq<(string, Json)>)
    ensures key !in Keys(r)
    ensures forall k :: k != key ==> Lookup(r, k) == Lookup(fields, k)
  {
    if fields == [] then []
    else if fields[0].0 == key then Without(fields[1..], key)
    else [fields[0]] + Without(fields[1..], key)
  }

  /** `String(v)`; an array is its elements' strings joined with `,`, where
      `null` and `undefined` elements become empty. */
  function ToStr(v: Json): string {
    match v
    case Undefined => "undefined"
    case Null => "null"
    case Bool(b) => if b then "true" else "false"
    case Num(n) => IntToString(n)
    case Str(s) => s
    case Arr(items) =>
      Join(seq(|items|, i requires 0 <= i < |items| =>
                          if Nullish(items[i]) then "" else ToStr(items[i])), ",")
    case Obj(_) => "[object Object]"
  }
}
