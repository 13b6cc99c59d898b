/** Small value types shared by the modules of the model. */
module Base {

  /** A value that may be absent: JavaScript's `undefined`/`null` for a field or a lookup. */
  datatype Option<+T> = None | Some(value: T)

  /** A JavaScript number as the model needs it: a real value or NaN (infinities are never stored). */
  datatype Num = Val(v: real) | NaN

  /** JavaScript truthiness of an optional number: present, and neither 0 nor NaN. */
  predicate Truthy(x: Option<real>) {
    x.Some? && x.value != 0.0
  }
}
