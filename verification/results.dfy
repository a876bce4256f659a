/** Outcomes of a formula call, and the optional inputs some formulas take.

    A formula in the library either returns a number, returns Python's `None`
    ("no result": the age or category lies outside every tabulated band), or
    raises. The two raises that can happen are kept apart: the `ValueError`
    each formula raises when its own input checks fail, and the
    `UnboundLocalError` of a formula that reads a local no branch assigned.
 */
module Results {

  /** An optional argument (Python `Optional[float]`, default `None`). */
  datatype Option<+T> = None | Some(value: T)

  /** The exceptions a formula call can end in. */
  datatype Error =
    | ValueError          // an input failed the formula's own validation
    | UnboundLocalError   // a local variable was read before any assignment

  /** The result of one formula call. */
  datatype Outcome = Ok(value: real) | NoResult | Fail(error: Error)

  /** Python truthiness of an optional number: present and non-zero. */
  predicate Truthy(o: Option<real>) {
    o.Some? && o.value != 0.0
  }

  /** A regression line `slope * x + intercept`. */
  datatype Line = Line(slope: real, intercept: real) {
    function At(x: real): real {
      slope * x + intercept
    }
  }

  /** A regression plane `a * x + b * y + c`. */
  datatype Plane = Plane(a: real, b: real, c: real) {
    function At(x: real, y: real): real {
      a * x + b * y + c
    }
  }
}
