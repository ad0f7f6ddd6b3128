/**
 * JavaScript values as the schema table and the request panel see them: a JSON-like
 * tree with JavaScript truthiness, property lookup, `Object.keys` and `for…in`.
 */
module JsValues {
  import opened Wrappers
  import opened Strings

  /**
   * A JavaScript value. `null` and `undefined` are both `Undefined`; numbers are integers;
   * an object is its own enumerable properties in the order `Object.keys` and `for…in`
   * list them (integer-like keys first, ascending, then the others in insertion order).
   */
  datatype Json =
    | Undefined
    | Bool(b: bool)
    | Num(n: int)
    | Str(s: string)
    | Arr(elems: seq<Json>)
    | Obj(fields: seq<Field>)

  /** One own property of an object. */
  datatype Field = Field(key: string, value: Json)

  /** JavaScript truthiness: `undefined`, `null`, `false`, `0` and `''` are falsy. */
  predicate Truthy(v: Json) {
    match v
    case Undefined => false
    case Bool(b) => b
    case Num(n) => n != 0
    case Str(s) => |s| > 0
    case _ => true
  }

  /** Index `i` holds the first property named `k`. */
  predicate FirstKeyAt(fields: seq<Field>, k: string, i: int) {
    0 <= i < |fields| && fields[i].key == k && forall j :: 0 <= j < i ==> fields[j].key != k
  }

  /** The value of the first property named `k`, or `Undefined` when there is none. */
  function Lookup(fields: seq<Field>, k: string): (r: Json)
    ensures (forall i :: 0 <= i < |fields| ==> fields[i].key != k) ==> r == Undefined
    ensures forall i :: FirstKeyAt(fields, k, i) ==> r == fields[i].value
  {
    if |fields| == 0 then Undefined
    else if fields[0].key == k then fields[0].value
    else Lookup(fields[1..], k)
  }

  /** `v[k]` for a property name `k` of the form `'::…'`: only objects have such properties. */
  function Prop(v: Json, k: string): Json {
    if v.Obj? then Lookup(v.fields, k) else Undefined
  }

  /** `v[k]` when it is a string. */
  function StrProp(v: Json, k: string): Option<string> {
    match Prop(v, k)
    case Str(s) => Some(s)
    case _ => None
  }

  /** `v[k] || ''` for a property holding a string. */
  function StrPropOrEmpty(v: Json, k: string): string {
    StrProp(v, k).GetOr("")
  }

  /** `Object.keys(v).length`. */
  function KeyCount(v: Json): nat {
    match v
    case Obj(fields) => |fields|
    case Arr(elems) => |elems|
    case Str(s) => |s|
    case _ => 0
  }

  /** The (key, value) pairs a `for…in` loop or `Object.keys(v).map` visits on an object or an array. */
  function Entries(v: Json): (r: seq<Field>)
    ensures v.Obj? || v.Arr? ==> |r| == KeyCount(v)
  {
    match v
    case Obj(fields) => fields
    case Arr(elems) => seq(|elems|, i requires 0 <= i < |elems| => Field(NatToString(i), elems[i]))
    case _ => []
  }

  /** The number of nodes of a value: a measure that every property lookup and every entry decreases. */
  function Size(v: Json): nat
    decreases v
  {
    match v
    case Arr(elems) => 1 + ElemsSize(elems)
    case Obj(fields) => 1 + FieldsSize(fields)
    case _ => 1
  }

  function ElemsSize(elems: seq<Json>): nat
    decreases elems
  {
    if |elems| == 0 then 0 else Size(elems[0]) + ElemsSize(elems[1..])
  }

  function FieldsSize(fields: seq<Field>): nat
    decreases fields
  {
    if |fields| == 0 then 0 else Size(fields[0].value) + FieldsSize(fields[1..])
  }

  lemma {:induction false} ElemNoLarger(elems: seq<Json>, i: nat)
    requires i < |elems|
    ensures Size(elems[i]) <= ElemsSize(elems)
    decreases i
  {
    if i > 0 {
      ElemNoLarger(elems[1..], i - 1);
    }
  }

  lemma {:induction false} FieldNoLarger(fields: seq<Field>, i: nat)
    requires i < |fields|
    ensures Size(fields[i].value) <= FieldsSize(fields)
    decreases i
  {
    if i > 0 {
      FieldNoLarger(fields[1..], i - 1);
    }
  }

  lemma {:induction false} LookupNoLarger(fields: seq<Field>, k: string)
    ensures Size(Lookup(fields, k)) <= 1 + FieldsSize(fields)
    decreases |fields|
  {
    if |fields| > 0 && fields[0].key != k {
      LookupNoLarger(fields[1..], k);
    }
  }

  /** A property of a value is no larger than the value. */
  lemma PropNoLarger(v: Json, k: string)
    ensures Size(Prop(v, k)) <= Size(v)
  {
    if v.Obj? {
      LookupNoLarger(v.fields, k);
    }
  }

  /** Every entry visited by `for…in` is strictly smaller than its container. */
  lemma EntrySmaller(v: Json, i: nat)
    requires i < |Entries(v)|
    ensures Size(Entries(v)[i].value) < Size(v)
  {
    match v
    case Obj(fields) => FieldNoLarger(fields, i);
    case Arr(elems) => ElemNoLarger(elems, i);
  }
}
