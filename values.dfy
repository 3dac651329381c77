/**
 * JavaScript values as the hook engine sees them: only identity, strict
 * equality (`===`), SameValue and truthiness matter, so numbers are kept
 * abstract except for the special values NaN, +0, -0 and the infinities.
 */
module JsValues {

  /** A heap object. Of its properties only `current` is modelled (the field
      that refs and imperative handles read and write). */
  class JsObject {
    var current: Val

    constructor (initial: Val)
      ensures current == initial
    {
      current := initial;
    }
  }

  /** A JavaScript value. `Finite(n)` is a finite number other than a zero; `n`
      names the number, it is not its magnitude. Objects and functions are
      compared by identity. */
  datatype Val =
    | Undefined
    | Null
    | Bool(b: bool)
    | Str(s: string)
    | Finite(n: int)
    | PosZero
    | NegZero
    | NaN
    | Infinity(positive: bool)
    | Obj(o: JsObject)
    | Fn(id: nat)

  predicate IsNumber(v: Val) {
    v.Finite? || v.PosZero? || v.NegZero? || v.NaN? || v.Infinity?
  }

  predicate IsZero(v: Val) {
    v.PosZero? || v.NegZero?
  }

  /** The strict equality operator `===` (Strict Equality Comparison,
      section 7.2.15 of ECMA-262, 2019 edition): NaN is unequal to everything,
      +0 and -0 are equal, everything else compares by value or identity. */
  function StrictEquals(x: Val, y: Val): bool {
    if x.NaN? || y.NaN? then false
    else if IsZero(x) && IsZero(y) then true
    else x == y
  }

  /** SameValue (section 7.2.10 of ECMA-262, 2019 edition), written the way
      the standard states it: for two numbers NaN equals NaN and +0 differs
      from -0; every other pair compares as SameValueNonNumber does. */
  function SameValue(x: Val, y: Val): bool {
    if IsNumber(x) && IsNumber(y) then
      if x.NaN? && y.NaN? then true
      else if (x.PosZero? && y.NegZero?) || (x.NegZero? && y.PosZero?) then false
      else x == y
    else
      x == y
  }

  /** ToBoolean (section 7.1.2 of ECMA-262, 2019 edition), the test behind
      `if (x)` and `x && ...`. */
  predicate Truthy(v: Val) {
    match v
    case Undefined => false
    case Null => false
    case Bool(b) => b
    case Str(s) => s != ""
    case PosZero => false
    case NegZero => false
    case NaN => false
    case _ => true
  }

  /** `x == null`, the loose test that also accepts `undefined`. */
  predicate IsNullish(v: Val) {
    v.Undefined? || v.Null?
  }

  /** `1 / z` for a zero `z`: the infinity of the same sign. */
  function OneOverZero(z: Val): Val
    requires IsZero(z)
  {
    Infinity(z.PosZero?)
  }

  /** Why the comparator divides: `1 / z` tells two zeros apart exactly when
      they have opposite signs, which `===` alone does not. */
  lemma OneOverZeroSeparatesZeros(a: Val, b: Val)
    requires IsZero(a) && IsZero(b)
    ensures StrictEquals(a, b)
    ensures StrictEquals(OneOverZero(a), OneOverZero(b)) <==> a == b
  {
  }

  /** On this value model SameValue is identity of the abstract value. */
  lemma SameValueIsIdentity(x: Val, y: Val)
    ensures SameValue(x, y) <==> x == y
  {
  }

  /** Strict equality and SameValue disagree exactly on NaN and on a pair of
      zeros of opposite sign. */
  lemma StrictEqualsVersusSameValue(x: Val, y: Val)
    ensures StrictEquals(x, y) && !SameValue(x, y) <==> IsZero(x) && IsZero(y) && x != y
    ensures !StrictEquals(x, y) && SameValue(x, y) <==> x.NaN? && y.NaN?
  {
  }

  datatype Option<T> = None | Some(value: T)

  /** The errors a hook call can raise. */
  datatype JsError =
    | InvalidContext   // `new Error('Hooks can only be called inside a component.')`
    | TypeError        // a property read on null or undefined

  datatype Result<T> = Ok(value: T) | Err(error: JsError)
}
