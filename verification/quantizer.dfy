/** The quantizer: rounding to the nearest step of the ADC resolution. */
module Quantizer {

  function Abs(x: real): real
  {
    if x < 0.0 then -x else x
  }

  /** Nearest integer with halfway cases rounded away from zero, as
      std::round and roundf do. The three clauses determine the result. */
  function Round(x: real): (n: int)
    ensures -0.5 <= x - n as real <= 0.5
    ensures x - n as real == 0.5 ==> x < 0.0
    ensures x - n as real == -0.5 ==> x > 0.0
  {
    if x >= 0.0 then (x + 0.5).Floor else -((-x + 0.5).Floor)
  }

  /** True when x is an integer multiple of the non-zero step m. */
  predicate IsMultipleOf(x: real, m: real)
    requires m != 0.0
  {
    (x / m).Floor as real == x / m
  }

  lemma AbsMul(a: real, b: real)
    ensures Abs(a * b) == Abs(a) * Abs(b)
  {
    if a >= 0.0 {
      if b >= 0.0 { assert a * b >= 0.0; } else { assert a * b <= 0.0; }
    } else {
      if b >= 0.0 { assert a * b <= 0.0; } else { assert a * b >= 0.0; }
    }
  }

  lemma MulMono(a: real, x: real, y: real)
    requires a >= 0.0 && x <= y
    ensures a * x <= a * y
  {
    assert a * y - a * x == a * (y - x);
  }

  /** The distance from value to the multiple x * multiple, counted in steps,
      where q is value measured in steps. */
  lemma StepDistance(value: real, multiple: real, q: real, x: real)
    requires q * multiple == value
    ensures Abs(x * multiple - value) == Abs(multiple) * Abs(x - q)
  {
    assert x * multiple - value == multiple * (x - q);
    AbsMul(multiple, x - q);
  }

  /** A multiple nearer in steps is nearer in volts. */
  lemma NearerInSteps(value: real, multiple: real, q: real, x: real, y: real)
    requires q * multiple == value
    requires Abs(x - q) <= Abs(y - q)
    ensures Abs(x * multiple - value) <= Abs(y * multiple - value)
  {
    StepDistance(value, multiple, q, x);
    StepDistance(value, multiple, q, y);
    MulMono(Abs(multiple), Abs(x - q), Abs(y - q));
  }

  lemma MultipleOfStep(n: int, m: real)
    requires m != 0.0
    ensures IsMultipleOf(n as real * m, m)
  {
    assert (n as real * m) / m == n as real;
  }

  /** Round(q) is no further from q than any other integer is. */
  lemma RoundIsNearestInteger(q: real, k: int)
    ensures Abs(Round(q) as real - q) <= Abs(k as real - q)
  {
    var n := Round(q);
    if k > n {
      assert k as real >= n as real + 1.0;
    } else if k < n {
      assert k as real <= n as real - 1.0;
    }
  }

  /** roundUp: a zero step leaves the value alone; otherwise the result is a
      multiple of the step no further than half a step from the value. */
  function RoundUp(value: real, multiple: real): (r: real)
    ensures multiple == 0.0 ==> r == value
    ensures multiple != 0.0 ==> IsMultipleOf(r, multiple)
    ensures Abs(r - value) <= Abs(multiple) / 2.0
  {
    if multiple == 0.0 then value
    else
      var q := value / multiple;
      var n := Round(q);
      assert q * multiple == value;
      StepDistance(value, multiple, q, n as real);
      MulMono(Abs(multiple), Abs(n as real - q), 0.5);
      MultipleOfStep(n, multiple);
      n as real * multiple
  }

  /** The nearest integer number of steps gives the nearest multiple. */
  lemma NearestMultiple(value: real, multiple: real, q: real, k: int)
    requires q * multiple == value
    ensures Abs(Round(q) as real * multiple - value) <= Abs(k as real * multiple - value)
  {
    RoundIsNearestInteger(q, k);
    NearerInSteps(value, multiple, q, Round(q) as real, k as real);
  }

  lemma RoundUpNearestNonZero(value: real, multiple: real, k: int)
    requires multiple != 0.0
    ensures Abs(RoundUp(value, multiple) - value) <= Abs(k as real * multiple - value)
  {
    var q := value / multiple;
    assert q * multiple == value;
    assert RoundUp(value, multiple) == Round(q) as real * multiple;
    NearestMultiple(value, multiple, q, k);
  }

  /** No multiple of the step is nearer to the value than roundUp's result. */
  lemma {:induction false} RoundUpNearest(value: real, multiple: real, k: int)
    ensures Abs(RoundUp(value, multiple) - value) <= Abs(k as real * multiple - value)
  {
    if multiple != 0.0 {
      RoundUpNearestNonZero(value, multiple, k);
    } else {
      assert RoundUp(value, multiple) == value;
    }
  }

  /** The four-decimal rounding of the composite builder,
      roundf(x * 10000) / 10000: a multiple of 0.0001 within 0.00005 of x. */
  function Round4(x: real): (r: real)
    ensures Abs(r - x) <= 1.0 / 20000.0
    ensures (r * 10000.0).Floor as real == r * 10000.0
    ensures x == 0.0 ==> r == 0.0
  {
    Round(x * 10000.0) as real / 10000.0
  }
}
