/** The part of JavaScript's value model that the app's decisions look at:
    values as the store and the actions carry them, truthiness, `Array.isArray`,
    property-key conversion and `Object.assign({}, v)`. */
module Js {

  /** A JavaScript value. Numbers are integers in this model. */
  datatype Value =
    | Undefined
    | Null
    | Bool(b: bool)
    | Num(n: int)
    | Str(s: string)
    | Arr(items: seq<Value>)
    | Obj(fields: map<string, Value>)

  /** JavaScript's truthiness: `undefined`, `null`, `false`, `0` and `""` are falsy,
      every array and object (even an empty one) is truthy. */
  predicate Truthy(v: Value) {
    match v
    case Undefined => false
    case Null => false
    case Bool(b) => b
    case Num(n) => n != 0
    case Str(s) => s != ""
    case Arr(_) => true
    case Obj(_) => true
  }

  /** A value that the code tests with `Array.isArray` before treating it as a list. */
  datatype MaybeArray<T> = NotArray | Array(items: seq<T>)

  datatype Option<T> = None | Some(value: T)

  /** The decimal digits of `n`, as `String(n)` writes them. */
  function Decimal(n: nat): (r: string)
    ensures |r| >= 1
    ensures forall i :: 0 <= i < |r| ==> '0' <= r[i] <= '9'
  {
    if n < 10 then ["0123456789"[n]] else Decimal(n / 10) + ["0123456789"[n % 10]]
  }

  /** The string a value becomes when it is used as a property key (`obj[v] = ...`). */
  function PropertyKey(v: Value): string
  {
    match v
    case Undefined => "undefined"
    case Null => "null"
    case Bool(b) => if b then "true" else "false"
    case Num(n) => if n < 0 then "-" + Decimal(-n) else Decimal(n)
    case Str(s) => s
    case Arr(items) => JoinedKeys(items)
    case Obj(_) => "[object Object]"
  }

  /** `Array.prototype.toString`: the elements joined by commas, `null` and
      `undefined` written as empty strings. */
  function JoinedKeys(items: seq<Value>): string
    decreases items
  {
    if items == [] then ""
    else
      var last := items[|items| - 1];
      var head := JoinedKeys(items[..|items| - 1]);
      var key := if last.Undefined? || last.Null? then "" else PropertyKey(last);
      if |items| == 1 then key else head + "," + key
  }

  /** Own enumerable properties of an array or a string: index keys to elements. */
  function IndexedFields(items: seq<Value>): map<string, Value>
  {
    if items == [] then map[]
    else IndexedFields(items[..|items| - 1])[Decimal(|items| - 1) := items[|items| - 1]]
  }

  /** `Object.assign({}, v)`: a fresh object holding a shallow copy of the own
      enumerable properties of `v`; primitives other than strings, `null` and
      `undefined` contribute none. */
  function ShallowCopy(v: Value): (r: Value)
    ensures r.Obj?
    ensures v.Obj? ==> r == v
    ensures (v.Undefined? || v.Null? || v.Bool? || v.Num?) ==> r == Obj(map[])
  {
    match v
    case Obj(fields) => Obj(fields)
    case Arr(items) => Obj(IndexedFields(items))
    case Str(s) => Obj(IndexedFields(seq(|s|, i requires 0 <= i < |s| => Str([s[i]]))))
    case _ => Obj(map[])
  }
}
