/** JavaScript values as the server sees them: parsed JSON bodies, the
    `undefined` a missing property yields, and the `||` / `??` / `?.`
    operators the handler and the adapters use to pick defaults. */
module JsValues {

  /** A JSON value as produced by `JSON.parse`, plus `Undefined`, which a
      property read yields when the property is missing. Numbers are
      integers (see README, "Left out"). Objects keep their members in
      source order; a repeated key is resolved by `Lookup`. */
  datatype Json =
    | Undefined
    | Null
    | Bool(b: bool)
    | Num(n: int)
    | Str(s: string)
    | Arr(items: seq<Json>)
    | Obj(fields: seq<(string, Json)>)

  /** JavaScript truthiness: `undefined`, `null`, `false`, `0` and `""` are falsy. */
  predicate Truthy(v: Json) {
    match v
    case Undefined => false
    case Null => false
    case Bool(b) => b
    case Num(n) => n != 0
    case Str(s) => s != ""
    case Arr(_) => true
    case Obj(_) => true
  }

  /** The values that `??` and `?.` treat as absent. */
  predicate Nullish(v: Json) {
    v.Undefined? || v.Null?
  }

  /** `a || b` */
  function Or(a: Json, b: Json): Json {
    if Truthy(a) then a else b
  }

  /** `a ?? b` */
  function Coalesce(a: Json, b: Json): Json {
    if Nullish(a) then b else a
  }

  /** `||` and `??` pick differently exactly on the falsy values that are
      not nullish: `false`, `0` and `""` survive `??` but not `||`. */
  lemma OrDiffersFromCoalesce(a: Json, b: Json)
    ensures Or(a, b) == Coalesce(a, b) <==> (Truthy(a) || Nullish(a) || a == b)
  {
  }

  /** The value of `key` in a parsed object: `JSON.parse` keeps the last
      of repeated keys. */
  function Lookup(fields: seq<(string, Json)>, key: string): Json
    decreases |fields|
  {
    if |fields| == 0 then Undefined
    else if fields[|fields| - 1].0 == key then fields[|fields| - 1].1
    else Lookup(fields[..|fields| - 1], key)
  }

  /** The member a key maps to is its last occurrence in the object. */
  lemma {:induction false} LookupFindsLast(fields: seq<(string, Json)>, key: string, i: int)
    requires 0 <= i < |fields| && fields[i].0 == key
    requires forall j :: i < j < |fields| ==> fields[j].0 != key
    ensures Lookup(fields, key) == fields[i].1
    decreases |fields|
  {
    if i < |fields| - 1 {
      var init := fields[..|fields| - 1];
      assert init[i] == fields[i];
      LookupFindsLast(init, key, i);
    }
  }

  /** A key no member carries reads as `undefined`. */
  lemma {:induction false} LookupMissing(fields: seq<(string, Json)>, key: string)
    requires forall j :: 0 <= j < |fields| ==> fields[j].0 != key
    ensures Lookup(fields, key) == Undefined
    decreases |fields|
  {
    if |fields| > 0 {
      LookupMissing(fields[..|fields| - 1], key);
    }
  }

  /** `v?.key` (and `v.key` on a non-nullish value) for a key that names no
      built-in property of strings, arrays or objects: only an object can
      hold it, and a nullish `v` short-circuits to `undefined`. */
  function Prop(v: Json, key: string): Json {
    match v
    case Obj(fields) => Lookup(fields, key)
    case _ => Undefined
  }

  /** `v?.[0]`: the first element of an array, the first character of a
      string, the member named "0" of an object, else `undefined`. */
  function Index0(v: Json): Json {
    match v
    case Arr(items) => if |items| > 0 then items[0] else Undefined
    case Str(s) => if |s| > 0 then Str([s[0]]) else Undefined
    case Obj(fields) => Lookup(fields, "0")
    case _ => Undefined
  }

  /** The member names of an object, in order (empty for non-objects). */
  function Keys(v: Json): seq<string> {
    match v
    case Obj(fields) => Names(fields)
    case _ => []
  }

  function Names(fields: seq<(string, Json)>): (ks: seq<string>)
    ensures |ks| == |fields|
    ensures forall i :: 0 <= i < |fields| ==> ks[i] == fields[i].0
    decreases |fields|
  {
    if |fields| == 0 then [] else [fields[0].0] + Names(fields[1..])
  }
}
