/**
 * The salary estimator of main.py (`calculate_salary`): one expected salary
 * from an optional lower and an optional upper payment bound.
 *
 * The source tests the bounds with Python truthiness, so a bound that is
 * missing, JSON null or the number 0 all count as "not given". The estimate
 * is computed exactly, as a `real`: no rounding happens at this stage.
 */
module Estimator {
  import opened Wrappers

  /** A payment bound that Python's `if payment_from:` treats as given. */
  predicate Present(bound: Option<int>)
  {
    bound.Some? && bound.value != 0
  }

  /** An estimate that Python's `if expected_salary:` treats as usable. */
  predicate Usable(estimate: Option<real>)
  {
    estimate.Some? && estimate.value != 0.0
  }

  /**
   * The expected salary of one listing: the midpoint when both bounds are
   * given, the one bound when only one is given, nothing otherwise.
   */
  function CalculateSalary(paymentFrom: Option<int>, paymentTo: Option<int>): (r: Option<real>)
    ensures r.Some? <==> Present(paymentFrom) || Present(paymentTo)
    ensures Present(paymentFrom) && Present(paymentTo) ==>
      r.value - paymentFrom.value as real == paymentTo.value as real - r.value
    ensures Present(paymentFrom) && !Present(paymentTo) ==> r.value == paymentFrom.value as real
    ensures !Present(paymentFrom) && Present(paymentTo) ==> r.value == paymentTo.value as real
  {
    if Present(paymentFrom) && Present(paymentTo) then
      Some((paymentFrom.value + paymentTo.value) as real / 2.0)
    else if Present(paymentFrom) then
      Some(paymentFrom.value as real)
    else if Present(paymentTo) then
      Some(paymentTo.value as real)
    else
      None
  }

  /** Neither bound negative: what the recruitment sites report. */
  predicate NonNegative(bound: Option<int>)
  {
    bound.Some? ==> bound.value >= 0
  }

  /**
   * With non-negative integer bounds every estimate is at least 1, so it is
   * always usable and it lies between the given bounds.
   */
  lemma EstimateOfNonNegativeBounds(paymentFrom: Option<int>, paymentTo: Option<int>)
    requires NonNegative(paymentFrom) && NonNegative(paymentTo)
    ensures CalculateSalary(paymentFrom, paymentTo).Some? ==>
      Usable(CalculateSalary(paymentFrom, paymentTo)) &&
      CalculateSalary(paymentFrom, paymentTo).value >= 1.0
    ensures Present(paymentFrom) && Present(paymentTo) ==>
      var e := CalculateSalary(paymentFrom, paymentTo).value;
      (paymentFrom.value as real <= e <= paymentTo.value as real) ||
      (paymentTo.value as real <= e <= paymentFrom.value as real)
  {
  }
}
