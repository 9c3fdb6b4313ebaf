/**
 * A JSON-shaped dynamic value: a Python dict/list/str/number/None as the
 * backend passes it around, or a JavaScript value as the browser receives it.
 * Objects keep their keys in insertion order, as Python dicts and JavaScript
 * objects with non-numeric keys do. `Option<Json>` with `None` stands for a
 * missing key (JavaScript `undefined`).
 */
module Json {
  import opened Wrappers
  import opened Strs

  datatype Json =
    | Null
    | Bool(b: bool)
    | Num(n: real)
    | NaN
    | Str(s: string)
    | Arr(items: seq<Json>)
    | Obj(fields: seq<(string, Json)>)

  /** The value stored under `key` in an association list (the first binding). */
  function Lookup(fields: seq<(string, Json)>, key: string): Option<Json> {
    if |fields| == 0 then None
    else if fields[0].0 == key then Some(fields[0].1)
    else Lookup(fields[1..], key)
  }

  /** A key is found exactly when some binding carries it, and what is found is bound to it. */
  lemma {:induction false} LookupFound(fields: seq<(string, Json)>, key: string)
    ensures Lookup(fields, key).Some? <==> exists i :: 0 <= i < |fields| && fields[i].0 == key
    ensures Lookup(fields, key).Some? ==> exists i :: 0 <= i < |fields| && fields[i] == (key, Lookup(fields, key).value)
  {
    if |fields| > 0 && fields[0].0 != key {
      LookupFound(fields[1..], key);
      assert forall i :: 0 <= i < |fields| - 1 ==> fields[1..][i] == fields[i + 1];
    }
  }

  /** The first binding of a key is the one found. */
  lemma {:induction false} LookupFirst(fields: seq<(string, Json)>, i: nat)
    requires i < |fields| && forall j :: 0 <= j < i ==> fields[j].0 != fields[i].0
    ensures Lookup(fields, fields[i].0) == Some(fields[i].1)
  {
    if i > 0 {
      assert fields[0].0 != fields[i].0;
      assert fields[1..][i - 1] == fields[i];
      LookupFirst(fields[1..], i - 1);
    }
  }

  /** `obj[key]` / `obj.get(key)`: `None` when the key is absent or the value is not an object. */
  function Get(j: Json, key: string): Option<Json> {
    if j.Obj? then Lookup(j.fields, key) else None
  }

  /** JavaScript optional chaining `o?.key`. */
  function Chain(o: Option<Json>, key: string): Option<Json> {
    if o.Some? then Get(o.value, key) else None
  }

  /** JavaScript `null` or `undefined`. */
  predicate Nullish(o: Option<Json>) {
    o.None? || o == Some(Null)
  }

  /** JavaScript `a ?? b`. */
  function Coalesce(a: Option<Json>, b: Option<Json>): Option<Json> {
    if Nullish(a) then b else a
  }

  /** The `isObj` helper of the frontend: a non-null, non-array object. */
  predicate IsObject(o: Option<Json>) {
    o.Some? && o.value.Obj?
  }

  /** `Array.isArray(o)`. */
  predicate IsArray(o: Option<Json>) {
    o.Some? && o.value.Arr?
  }

  /** `typeof o === "number"` (NaN included, as in JavaScript). */
  predicate IsNumber(o: Option<Json>) {
    o.Some? && (o.value.Num? || o.value.NaN?)
  }

  /** JavaScript truthiness. */
  predicate JsTruthy(o: Option<Json>) {
    match o
    case None => false
    case Some(j) =>
      match j
      case Null => false
      case Bool(b) => b
      case Num(n) => n != 0.0
      case NaN => false
      case Str(s) => s != ""
      case Arr(_) => true
      case Obj(_) => true
  }

  /** Python truthiness (`NaN` is truthy in Python). */
  predicate PyTruthy(j: Json) {
    match j
    case Null => false
    case Bool(b) => b
    case Num(n) => n != 0.0
    case NaN => true
    case Str(s) => s != ""
    case Arr(items) => items != []
    case Obj(fields) => fields != []
  }

  /** Python `d[key] = v`: an existing key keeps its position, a new key goes last. */
  function Put(fields: seq<(string, Json)>, key: string, v: Json): (r: seq<(string, Json)>)
    ensures Lookup(r, key) == Some(v)
    ensures forall k :: k != key ==> Lookup(r, k) == Lookup(fields, k)
    ensures |r| == if Lookup(fields, key).Some? then |fields| else |fields| + 1
  {
    if |fields| == 0 then [(key, v)]
    else if fields[0].0 == key then [(key, v)] + fields[1..]
    else [fields[0]] + Put(fields[1..], key, v)
  }

  /** No key is bound twice, as in a Python dict or a JavaScript object. */
  predicate DistinctKeys(fields: seq<(string, Json)>) {
    forall i, j :: 0 <= i < j < |fields| ==> fields[i].0 != fields[j].0
  }

  /** Assigning a key of a dict keeps its keys distinct. */
  lemma {:induction false} PutDistinct(fields: seq<(string, Json)>, key: string, v: Json)
    requires DistinctKeys(fields)
    ensures DistinctKeys(Put(fields, key, v))
  {
    if |fields| > 0 && fields[0].0 != key {
      var rest := fields[1..];
      var r := Put(rest, key, v);
      PutDistinct(rest, key, v);
      assert Lookup(rest, fields[0].0).None? by {
        LookupFound(rest, fields[0].0);
      }
      assert Lookup(r, fields[0].0).None?;
      LookupFound(r, fields[0].0);
      assert Put(fields, key, v) == [fields[0]] + r;
    }
  }

  /** Python `d.setdefault(key, v)`: a new key goes last with `v`, an existing key is left alone. */
  function SetDefault(fields: seq<(string, Json)>, key: string, v: Json): (r: seq<(string, Json)>)
    ensures Lookup(r, key) == if Lookup(fields, key).Some? then Lookup(fields, key) else Some(v)
    ensures forall k :: k != key ==> Lookup(r, k) == Lookup(fields, k)
  {
    if |fields| == 0 then [(key, v)]
    else if fields[0].0 == key then fields
    else [fields[0]] + SetDefault(fields[1..], key, v)
  }

  /** The keys of an association list, in order. */
  function Keys(fields: seq<(string, Json)>): (r: seq<string>)
    ensures |r| == |fields| && forall i :: 0 <= i < |r| ==> r[i] == fields[i].0
  {
    if |fields| == 0 then [] else [fields[0].0] + Keys(fields[1..])
  }

  /**
   * Python `str(x)`. Numbers are rendered by `num` (Python's float and int
   * formatting), containers by `repr` (Python's `repr` of lists and dicts).
   */
  function PyStr(j: Json, num: real -> string, repr: Json -> string): string {
    match j
    case Null => "None"
    case Bool(b) => if b then "True" else "False"
    case Num(n) => num(n)
    case NaN => "nan"
    case Str(s) => s
    case Arr(_) => repr(j)
    case Obj(_) => repr(j)
  }

  /** JavaScript `String(x)`; numbers are rendered by `num`. */
  function JsString(o: Option<Json>, num: real -> string): string {
    match o
    case None => "undefined"
    case Some(j) => JsStringOf(j, num)
  }

  function JsStringOf(j: Json, num: real -> string): string {
    match j
    case Null => "null"
    case Bool(b) => if b then "true" else "false"
    case Num(n) => num(n)
    case NaN => "NaN"
    case Str(s) => s
    case Arr(items) => JoinElements(items, num)
    case Obj(_) => "[object Object]"
  }

  /** `Array.prototype.join(",")` as `String(array)` uses it: `null` elements print as "". */
  function JoinElements(items: seq<Json>, num: real -> string): string
    decreases items, 0
  {
    if |items| == 0 then ""
    else
      var head := if items[0].Null? then "" else JsStringOf(items[0], num);
      if |items| == 1 then head else head + "," + JoinElements(items[1..], num)
  }
}
