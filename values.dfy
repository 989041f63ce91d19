/**
 * The untyped values the TypeScript code inspects at run time: request bodies,
 * `JSON.parse` results and `unknown` fields. Numbers are reals (no NaN or infinities,
 * which JSON cannot carry); `Undefined` stands for a missing property.
 */
module Values {

  datatype Value =
    | Undefined
    | Null
    | Bool(b: bool)
    | Num(n: real)
    | Str(s: string)
    | Arr(items: seq<Value>)
    | Obj(fields: map<string, Value>)

  /** `v[key]`: an own property of an object, `undefined` for anything else. */
  function Get(v: Value, key: string): Value {
    if v.Obj? && key in v.fields then v.fields[key] else Undefined
  }

  /** `typeof v === 'object' && v !== null` (arrays included). */
  predicate IsObjectLike(v: Value) {
    v.Obj? || v.Arr?
  }

  /** JavaScript truthiness (`Boolean(v)`). */
  predicate Truthy(v: Value) {
    match v
    case Undefined => false
    case Null => false
    case Bool(b) => b
    case Num(n) => n != 0.0
    case Str(s) => s != ""
    case Arr(_) => true
    case Obj(_) => true
  }

  /** `v ?? fallback`. */
  function Coalesce(v: Value, fallback: Value): Value {
    if v.Null? || v.Undefined? then fallback else v
  }

  /** A number with no fractional part (`Number.isInteger`). */
  predicate IsInteger(v: Value) {
    v.Num? && v.n.Floor as real == v.n
  }

  /** `z.number().int().nonnegative()`. */
  predicate IsNonNegativeInteger(v: Value) {
    IsInteger(v) && v.n >= 0.0
  }

  /** `z.number().int().positive()`. */
  predicate IsPositiveInteger(v: Value) {
    IsInteger(v) && v.n > 0.0
  }

  /** `z.string().min(1)`. */
  predicate IsNonEmptyString(v: Value) {
    v.Str? && v.s != ""
  }

  /** An array whose every element is a string. */
  predicate IsStringArray(v: Value) {
    v.Arr? && forall k :: 0 <= k < |v.items| ==> v.items[k].Str?
  }

  /** The strings of a string array, in order. */
  function Strings(v: Value): (r: seq<string>)
    requires IsStringArray(v)
    ensures |r| == |v.items|
    ensures forall k :: 0 <= k < |r| ==> v.items[k] == Str(r[k])
  {
    seq(|v.items|, k requires 0 <= k < |v.items| => v.items[k].s)
  }

  /** The array of the given strings. */
  function StringArray(xs: seq<string>): (v: Value)
    ensures IsStringArray(v) && Strings(v) == xs
  {
    Arr(seq(|xs|, k requires 0 <= k < |xs| => Str(xs[k])))
  }

  /** Reading a string array and writing it back gives the same value. */
  lemma StringsRoundTrip(v: Value)
    requires IsStringArray(v)
    ensures StringArray(Strings(v)) == v
  {
    assert StringArray(Strings(v)).items == v.items;
  }
}
