/** Cells of a float column. A missing value (pandas' NaN) is `None`; every
    comparison that involves a missing value is false, as it is for NaN. */
module Cells {

  datatype Option<+T> = None | Some(value: T)

  datatype Result<+T, +E> = Success(value: T) | Failure(error: E)

  /** `a > b` on two cells. */
  predicate Gt(a: Option<real>, b: Option<real>)
  {
    a.Some? && b.Some? && a.value > b.value
  }

  /** `a < b` on two cells. */
  predicate Lt(a: Option<real>, b: Option<real>)
  {
    a.Some? && b.Some? && a.value < b.value
  }

  /** `a >= b` on two cells. */
  predicate Ge(a: Option<real>, b: Option<real>)
  {
    a.Some? && b.Some? && a.value >= b.value
  }

  /** `a <= b` on two cells. */
  predicate Le(a: Option<real>, b: Option<real>)
  {
    a.Some? && b.Some? && a.value <= b.value
  }

  /** With a missing operand, `a > b` and `a <= b` are BOTH false: the
      NaN comparisons are not complements of each other. */
  lemma MissingFailsBoth(a: Option<real>, b: Option<real>)
    ensures (Gt(a, b) || Le(a, b)) <==> (a.Some? && b.Some?)
    ensures (Lt(a, b) || Ge(a, b)) <==> (a.Some? && b.Some?)
    ensures !(Gt(a, b) && Le(a, b)) && !(Lt(a, b) && Ge(a, b))
  {
  }
}
