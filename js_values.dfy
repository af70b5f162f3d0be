/**
 * Dynamic JavaScript values as the server handles them: request bodies,
 * tool arguments and results, provider payloads.  Numbers are integers here
 * (every number the modelled code builds or compares in a Value is one).
 */
module JsValues {

  datatype Value =
    | Undefined
    | Null
    | Bool(b: bool)
    | Num(n: int)
    | Str(s: string)
    | Arr(items: seq<Value>)
    | Obj(fields: seq<(string, Value)>)

  /** JavaScript truthiness (`if (v)`, `v || d`). */
  predicate Truthy(v: Value) {
    match v
    case Undefined => false
    case Null => false
    case Bool(b) => b
    case Num(n) => n != 0
    case Str(s) => s != ""
    case Arr(_) => true
    case Obj(_) => true
  }

  /** `typeof v === 'object'` (true for null, arrays and plain objects). */
  predicate IsObjectType(v: Value) {
    v.Null? || v.Arr? || v.Obj?
  }

  /** `a || b` on values. */
  function Or(a: Value, b: Value): (r: Value)
    ensures Truthy(a) ==> r == a
    ensures !Truthy(a) ==> r == b
  {
    if Truthy(a) then a else b
  }

  /** Property read `v[key]` on an object; anything else reads as undefined. */
  function Get(v: Value, key: string): (r: Value)
    ensures !v.Obj? ==> r == Undefined
    ensures v.Obj? && (forall i :: 0 <= i < |v.fields| ==> v.fields[i].0 != key) ==> r == Undefined
  {
    if v.Obj? then Lookup(v.fields, key) else Undefined
  }

  function Lookup(fields: seq<(string, Value)>, key: string): (r: Value)
    ensures (forall i :: 0 <= i < |fields| ==> fields[i].0 != key) ==> r == Undefined
    ensures forall i :: 0 <= i < |fields| && fields[i].0 == key && (forall j :: 0 <= j < i ==> fields[j].0 != key) ==> r == fields[i].1
  {
    if |fields| == 0 then Undefined
    else if fields[0].0 == key then fields[0].1
    else Lookup(fields[1..], key)
  }

  /** Element read `v[i]` on an array; anything else reads as undefined. */
  function Index(v: Value, i: nat): (r: Value)
    ensures v.Arr? && i < |v.items| ==> r == v.items[i]
    ensures !(v.Arr? && i < |v.items|) ==> r == Undefined
  {
    if v.Arr? && i < |v.items| then v.items[i] else Undefined
  }

  /**
   * What `JSON.parse(JSON.stringify(v))` gives back for a value that is not
   * itself undefined: object members holding undefined are dropped, array
   * elements holding undefined become null.
   */
  function JsonRoundTrip(v: Value): (r: Value)
    ensures v.Obj? <==> r.Obj?
    ensures v.Str? ==> r == v
    ensures v.Arr? ==> r.Arr? && |r.items| == |v.items|
  {
    match v
    case Arr(items) =>
      Arr(seq(|items|, i requires 0 <= i < |items| =>
        if items[i].Undefined? then Null else JsonRoundTrip(items[i])))
    case Obj(fields) =>
      Obj(DefinedMembers(seq(|fields|, i requires 0 <= i < |fields| =>
        (fields[i].0, JsonRoundTrip(fields[i].1)))))
    case _ => v
  }

  /** The members whose value is not undefined, in order. */
  function DefinedMembers(fields: seq<(string, Value)>): (r: seq<(string, Value)>)
    ensures forall i :: 0 <= i < |r| ==> !r[i].1.Undefined?
  {
    if |fields| == 0 then []
    else if fields[0].1.Undefined? then DefinedMembers(fields[1..])
    else [fields[0]] + DefinedMembers(fields[1..])
  }

  /**
   * The number `parseInt` or `parseFloat` reads from a string: NaN when the
   * string does not start with one.  Every comparison with NaN is false.
   */
  datatype Parsed<T> = NaN | Finite(value: T)
}
