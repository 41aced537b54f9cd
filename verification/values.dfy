/**
 Cell values of the price table. The analyzer keeps every indicator in a
 float column where NaN marks "not available yet" (a window that has not
 filled, a 0/0 quotient). Here a cell is an `Option<real>`: `None` is NaN and
 `Some(v)` an exact real, so absence is never confused with zero.
 */
module Values {

  /** A column cell: `None` is NaN. */
  datatype Option<+T> = None | Some(value: T)

  /** The outcome of an analysis step that can fail. */
  datatype Result<+T, +E> = Ok(value: T) | Err(error: E)

  /** Element-wise `a + b` on columns: NaN absorbs. */
  function Plus(a: Option<real>, b: Option<real>): Option<real>
  {
    if a.Some? && b.Some? then Some(a.value + b.value) else None
  }

  /** Element-wise `a - b` on columns: NaN absorbs. */
  function Minus(a: Option<real>, b: Option<real>): Option<real>
  {
    if a.Some? && b.Some? then Some(a.value - b.value) else None
  }

  /** `a * k` for a constant factor k: NaN absorbs. */
  function Times(a: Option<real>, k: real): Option<real>
  {
    if a.Some? then Some(a.value * k) else None
  }

  /** Unary minus on a cell. */
  function Negated(a: Option<real>): Option<real>
  {
    if a.Some? then Some(-a.value) else None
  }

  /** `a > b` on floats: every comparison with NaN is false. */
  predicate Greater(a: Option<real>, b: Option<real>)
  {
    a.Some? && b.Some? && a.value > b.value
  }

  /** `a < b` on floats: every comparison with NaN is false. */
  predicate Less(a: Option<real>, b: Option<real>)
  {
    a.Some? && b.Some? && a.value < b.value
  }
}
