/**
 * The few JavaScript value rules the client's logic depends on: object
 * properties that may be missing or explicitly `undefined`, the `||`
 * default idiom, and integrality of numbers.
 *
 * JavaScript numbers are modelled as exact `real`s; NaN and the infinities
 * are not represented.
 */
module JsValue {

  import opened Wrappers

  /**
   * One property of a JavaScript object. `Absent` is a key the object does
   * not have; `Undefined` is a key present with the value `undefined`
   * (as `{ vehicleId: vehicleId || undefined }` creates). Both read as
   * `undefined`, but object spread treats them differently.
   */
  datatype Prop<+T> = Absent | Undefined | Present(value: T) {

    /** Reading the property: `undefined` unless it holds a value. */
    function Get(): Option<T> {
      if Present? then Some(value) else None
    }
  }

  /**
   * The value of one key in `{ ...a, ...b }`: every key that `b` has,
   * even one set to `undefined`, overrides `a`.
   */
  function Spread<T>(a: Prop<T>, b: Prop<T>): Prop<T> {
    if b.Absent? then a else b
  }

  /** `p || d` for a string property: the empty string is falsy. */
  function OrString(p: Prop<string>, d: string): string {
    if p.Present? && p.value != "" then p.value else d
  }

  /** `p || d` for a number property: zero is falsy. */
  function OrNumber(p: Prop<real>, d: real): real {
    if p.Present? && p.value != 0.0 then p.value else d
  }

  /** `p || null` for a string property. */
  function OrNull(p: Prop<string>): Option<string> {
    if p.Present? && p.value != "" then Some(p.value) else None
  }

  /** `Number.isInteger(x)`, which zod's `.int()` uses. */
  predicate IsInt(x: real) {
    x.Floor as real == x
  }

  /**
   * The integer a string method such as `slice` makes of a number
   * argument: the fraction is dropped, rounding toward zero.
   */
  function ToIntegerTowardZero(x: real): (n: int)
    ensures x >= 0.0 ==> n == x.Floor && 0 <= n
    ensures x < 0.0 ==> n <= 0 && n as real >= x && x > n as real - 1.0
  {
    if x >= 0.0 then x.Floor else -((-x).Floor)
  }

  /** `!!s` for a string: only the empty string is falsy. */
  predicate Truthy(s: string) {
    s != ""
  }
}
