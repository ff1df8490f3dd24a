/**
 * The JavaScript values that upstream JSON fields carry, seen through the
 * coercions the collectors apply to them: `Number(x)` with `Number.isFinite`,
 * the `toNum(x, fallback)` helper, the nullish `??` operator and `typeof`.
 */
module JsValues {
  import opened Wrappers

  /**
   * A field of a parsed JSON response.
   * - Undefined: the field is absent (or an enclosing object is absent).
   * - Null: JSON `null`.
   * - Num(n): a JSON number (always finite).
   * - Text: a JSON string, known by what `Number(s)` gives when finite
   *   (`asNumber`) and by what `Date.parse(s)` gives when finite (`asDate`).
   * - Other: a boolean, array or object, known by what `Number(x)` gives.
   */
  datatype JsValue =
    | Undefined
    | Null
    | Num(n: real)
    | Text(asNumber: Option<real>, asDate: Option<real>)
    | Other(asNumber: Option<real>)

  /** `Number(v)` when it is finite; None when it is NaN or infinite. */
  function NumberOf(v: JsValue): (r: Option<real>)
    ensures v.Undefined? ==> r.None?
    ensures v.Null? ==> r == Some(0.0)
    ensures v.Num? ==> r == Some(v.n)
  {
    match v
    case Undefined => None
    case Null => Some(0.0)
    case Num(n) => Some(n)
    case Text(a, _) => a
    case Other(a) => a
  }

  /** `toNum(x, f)`: the finite number `x` coerces to, else `f`. */
  function ToNum(v: JsValue, fallback: real): (r: real)
    ensures NumberOf(v).Some? ==> r == NumberOf(v).value
    ensures NumberOf(v).None? ==> r == fallback
  {
    NumberOf(v).GetOr(fallback)
  }

  predicate IsNullish(v: JsValue) {
    v.Undefined? || v.Null?
  }

  /** `a ?? b`. */
  function Coalesce(a: JsValue, b: JsValue): (r: JsValue)
    ensures !IsNullish(a) ==> r == a
    ensures IsNullish(a) ==> r == b
  {
    if IsNullish(a) then b else a
  }

  /** A present, non-numeric value (a word, say) does not fall through `??`: it coerces to the fallback. */
  lemma CoalesceStopsAtPresentValue(a: JsValue, b: JsValue, f: real)
    requires !IsNullish(a) && NumberOf(a).None?
    ensures ToNum(Coalesce(a, b), f) == f
  {
  }

  /** `null` coerces to 0 under `toNum`, unlike `undefined`, which takes the fallback. */
  lemma NullIsZero(f: real)
    ensures ToNum(Null, f) == 0.0 && ToNum(Undefined, f) == f
  {
  }
}
