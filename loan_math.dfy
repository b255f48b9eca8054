/**
  Arithmetic shared by both copies of the loan-affordability rule: the
  present value of a level-payment loan (5% nominal yearly rate, paid
  monthly over five years) and the "most conservative of three bounds,
  never below zero" shape of the final recommendation.

  All quantities are exact reals; the rounding of IEEE doubles is not modelled.
*/
module LoanMath {

  /** Nominal monthly rate of the reference loan: 5% a year over 12 months. */
  const MONTHLY_RATE: real := 0.05 / 12.0

  /** Number of monthly payments of the reference loan (five years). */
  const N_PAYMENTS: nat := 60

  /** `x ** n` for a natural exponent. */
  function Pow(x: real, n: nat): real
  {
    if n == 0 then 1.0 else x * Pow(x, n - 1)
  }

  /** Multiplying both sides of an inequality by a non-negative factor keeps it. */
  lemma MulMono(a: real, x: real, y: real)
    requires a >= 0.0 && x <= y
    ensures a * x <= a * y
  {
    assert a * y - a * x == a * (y - x);
  }

  /** Bernoulli's inequality for a non-negative rate. */
  lemma {:induction false} Bernoulli(r: real, n: nat)
    requires r >= 0.0
    ensures Pow(1.0 + r, n) >= 1.0 + (n as real) * r
  {
    if n > 0 {
      Bernoulli(r, n - 1);
      BernoulliStep(r, (n - 1) as real, Pow(1.0 + r, n - 1));
      assert ((n - 1) as real) + 1.0 == n as real;
    }
  }

  /** One factor `1 + r` more keeps Bernoulli's bound. */
  lemma BernoulliStep(r: real, k: real, p: real)
    requires r >= 0.0 && k >= 0.0 && p >= 1.0 + k * r
    ensures (1.0 + r) * p >= 1.0 + (k + 1.0) * r
  {
    MulMono(1.0 + r, 1.0 + k * r, p);
    MulMono(k * r, 0.0, r);
    assert (1.0 + r) * (1.0 + k * r) == 1.0 + (k + 1.0) * r + k * r * r;
  }

  /** The growth `(1 + r)^n` never outweighs the linear deficit `1 - n*r`. */
  lemma {:induction false} GrowthTimesDeficit(r: real, n: nat)
    requires r >= 0.0
    ensures Pow(1.0 + r, n) * (1.0 - (n as real) * r) <= 1.0
  {
    if n > 0 {
      GrowthTimesDeficit(r, n - 1);
      Bernoulli(r, n - 1);
      GrowthStep(r, (n - 1) as real, Pow(1.0 + r, n - 1));
      assert ((n - 1) as real) + 1.0 == n as real;
    }
  }

  /** One factor `1 + r` more against one period more of deficit keeps the bound. */
  lemma GrowthStep(r: real, k: real, p: real)
    requires r >= 0.0 && k >= 0.0 && p >= 1.0 && p * (1.0 - k * r) <= 1.0
    ensures ((1.0 + r) * p) * (1.0 - (k + 1.0) * r) <= 1.0
  {
    var step := (1.0 + r) * (1.0 - (k + 1.0) * r);
    MulMono(k * r, 0.0, r);
    MulMono(r, 0.0, r);
    assert step == (1.0 - k * r) - k * r * r - r * r;
    MulMono(p, step, 1.0 - k * r);
    assert ((1.0 + r) * p) * (1.0 - (k + 1.0) * r) == p * step;
  }

  /**
    Sum of the discount factors `1/(1+r)^k` for k = 1..n: the principal that a
    payment of one currency unit per period, n times, repays at rate r.
  */
  function DiscountSum(r: real, n: nat): real
    requires r >= 0.0
  {
    if n == 0 then 0.0
    else
      Bernoulli(r, n);
      DiscountSum(r, n - 1) + 1.0 / Pow(1.0 + r, n)
  }

  /** The annuity factor `(g - 1) / (r g)` written on the growth `g = (1+r)^n`. */
  function ClosedForm(r: real, g: real): real
    requires r > 0.0 && g >= 1.0
  {
    MulMono(r, 1.0, g);
    (g - 1.0) / (r * g)
  }

  /** The closed-form present-value-of-annuity factor `((1+r)^n - 1) / (r (1+r)^n)`. */
  function AnnuityFactor(r: real, n: nat): real
    requires r > 0.0
  {
    var g := Pow(1.0 + r, n);
    ClosedFormBounds(r, n, g);
    ClosedForm(r, g)
  }

  /** The annuity factor lies between `n / (1 + n r)` and `n`. */
  lemma AnnuityFactorBounds(r: real, n: nat)
    requires r > 0.0
    ensures (n as real) / (1.0 + (n as real) * r) <= AnnuityFactor(r, n) <= n as real
  {
    ClosedFormBounds(r, n, Pow(1.0 + r, n));
  }

  /** The bounds of the annuity factor, stated on the growth `g = (1+r)^n`. */
  lemma ClosedFormBounds(r: real, n: nat, g: real)
    requires r > 0.0 && g == Pow(1.0 + r, n)
    ensures g >= 1.0
    ensures (n as real) / (1.0 + (n as real) * r) <= ClosedForm(r, g) <= n as real
  {
    Bernoulli(r, n);
    GrowthTimesDeficit(r, n);
    ClosedFormBetween(r, n as real, g);
  }

  /** Growth between the two linear bounds puts the closed form between `m / (1 + m r)` and `m`. */
  lemma ClosedFormBetween(r: real, m: real, g: real)
    requires r > 0.0 && m >= 0.0 && g >= 1.0 + m * r && g * (1.0 - m * r) <= 1.0
    ensures g >= 1.0
    ensures m / (1.0 + m * r) <= ClosedForm(r, g) <= m
  {
    MulMono(m, 0.0, r);
    ClosedFormLower(r, m, g);
    ClosedFormUpper(r, m, g);
  }

  /** Growth at least `1 + m r` puts the closed form at or above `m / (1 + m r)`. */
  lemma ClosedFormLower(r: real, m: real, g: real)
    requires r > 0.0 && m >= 0.0 && g >= 1.0 && g >= 1.0 + m * r
    ensures m / (1.0 + m * r) <= ClosedForm(r, g)
  {
    MulMono(r, 0.0, m);
    MulMono(r, 1.0, g);
    var rg := r * g;
    var f := ClosedForm(r, g);
    assert f * rg == g - 1.0;
    assert (g - 1.0) * (1.0 + m * r) - m * rg == g - 1.0 - m * r;
    assert (f * (1.0 + m * r)) * rg == (g - 1.0) * (1.0 + m * r);
    MulCancel(rg, m, f * (1.0 + m * r));
    var lo := m / (1.0 + m * r);
    assert lo * (1.0 + m * r) == m;
    MulCancel(1.0 + m * r, lo, f);
  }

  /** Growth that never outweighs the deficit `1 - m r` keeps the closed form at most `m`. */
  lemma ClosedFormUpper(r: real, m: real, g: real)
    requires r > 0.0 && g >= 1.0 && g * (1.0 - m * r) <= 1.0
    ensures ClosedForm(r, g) <= m
  {
    MulMono(r, 1.0, g);
    var rg := r * g;
    var f := ClosedForm(r, g);
    assert f * rg == g - 1.0;
    assert g - 1.0 <= m * rg;
    MulCancel(rg, f, m);
  }

  /** A positive factor can be cancelled from both sides of an inequality. */
  lemma MulCancel(a: real, x: real, y: real)
    requires a > 0.0 && x * a <= y * a
    ensures x <= y
  {
  }

  /** The closed form rewritten as `1/r - 1/(r g)`, with g the growth `(1+r)^n`. */
  lemma ClosedFormSplit(r: real, g: real)
    requires r > 0.0 && g >= 1.0
    ensures ClosedForm(r, g) == 1.0 / r - 1.0 / (r * g)
  {
    MulMono(r, 0.0, g);
    var x := (g - 1.0) / (r * g);
    var y := 1.0 / r - 1.0 / (r * g);
    assert x * (r * g) == g - 1.0;
    assert (1.0 / r) * (r * g) == g;
    assert (1.0 / (r * g)) * (r * g) == 1.0;
    assert y * (r * g) == (1.0 / r) * (r * g) - (1.0 / (r * g)) * (r * g);
    assert (x - y) * (r * g) == 0.0;
  }

  /** One more period: the closed form grows by the discount factor of the new payment. */
  lemma DiscountStep(r: real, g: real, h: real)
    requires r > 0.0 && h >= 1.0 && g == (1.0 + r) * h
    ensures 1.0 / r - 1.0 / (r * g) == (1.0 / r - 1.0 / (r * h)) + 1.0 / g
  {
    MulMono(r, 1.0, h);
    MulMono(h, 1.0, 1.0 + r);
    var rh := r * h;
    var lhs := 1.0 / rh;
    var rhs := 1.0 / (r * g) + 1.0 / g;
    assert r * g == rh * (1.0 + r);
    assert lhs * rh == 1.0;
    assert (1.0 / (r * g)) * (r * g) == 1.0;
    assert (1.0 / g) * g == 1.0;
    assert rhs * (r * g) == 1.0 + r;
    assert (rhs * rh) * (1.0 + r) == 1.0 + r;
    assert rhs * rh == 1.0;
    MulCancel(rh, lhs, rhs);
    MulCancel(rh, rhs, lhs);
  }

  /** The closed form is the discounted sum of the n payments. */
  lemma {:induction false} AnnuityFactorIsDiscountSum(r: real, n: nat)
    requires r > 0.0
    ensures AnnuityFactor(r, n) == DiscountSum(r, n)
  {
    if n > 0 {
      AnnuityFactorIsDiscountSum(r, n - 1);
      AnnuityFactorStep(r, n);
    }
  }

  /** One more payment adds its discount factor to the closed form. */
  lemma AnnuityFactorStep(r: real, n: nat)
    requires r > 0.0 && n > 0
    ensures Pow(1.0 + r, n) >= 1.0 && AnnuityFactor(r, n) == AnnuityFactor(r, n - 1) + 1.0 / Pow(1.0 + r, n)
  {
    var g, h := Pow(1.0 + r, n), Pow(1.0 + r, n - 1);
    ClosedFormBounds(r, n, g);
    ClosedFormBounds(r, n - 1, h);
    ClosedFormStep(r, g, h);
  }

  /** The closed form grows by `1/g` when the growth `h` gains one more factor `1 + r`. */
  lemma ClosedFormStep(r: real, g: real, h: real)
    requires r > 0.0 && h >= 1.0 && g == (1.0 + r) * h
    ensures g >= 1.0 && ClosedForm(r, g) == ClosedForm(r, h) + 1.0 / g
  {
    MulMono(h, 1.0, 1.0 + r);
    ClosedFormSplit(r, g);
    ClosedFormSplit(r, h);
    DiscountStep(r, g, h);
  }

  /** The annuity factor both copies compute: 60 payments at 5%/12, between 48 and 60. */
  function LoanTermFactor(): (f: real)
    ensures 48.0 <= f <= 60.0
  {
    LoanTermFactorBounds();
    AnnuityFactor(MONTHLY_RATE, N_PAYMENTS)
  }

  /** The reference loan's factor: `60 / 1.25 = 48` from below, 60 from above. */
  lemma LoanTermFactorBounds()
    ensures 48.0 <= AnnuityFactor(MONTHLY_RATE, N_PAYMENTS) <= 60.0
  {
    AnnuityFactorBounds(MONTHLY_RATE, N_PAYMENTS);
  }

  /**
    Largest principal the monthly payment `payment` can service under the
    reference loan terms.
  */
  function MaxLoanFromPayment(payment: real): real
  {
    payment * LoanTermFactor()
  }

  /** The principal is between 48 and 60 monthly payments; positive whenever the payment is. */
  lemma MaxLoanFromPaymentBounds(payment: real)
    ensures payment > 0.0 ==> 48.0 * payment <= MaxLoanFromPayment(payment) <= 60.0 * payment
    ensures payment <= 0.0 ==> MaxLoanFromPayment(payment) <= 0.0
  {
    ScaleBetween(payment, LoanTermFactor(), 48.0, 60.0, MaxLoanFromPayment(payment));
  }

  /** More payment room never supports a smaller principal. */
  lemma MaxLoanFromPaymentMonotone(x: real, y: real)
    requires x <= y
    ensures MaxLoanFromPayment(x) <= MaxLoanFromPayment(y)
  {
    ScaleMonotone(LoanTermFactor(), x, y, MaxLoanFromPayment(x), MaxLoanFromPayment(y));
  }

  /** `px` is `x` scaled by a factor between `lo` and `hi`. */
  lemma ScaleBetween(x: real, f: real, lo: real, hi: real, px: real)
    requires 0.0 <= lo <= f <= hi && px == x * f
    ensures x > 0.0 ==> lo * x <= px <= hi * x
    ensures x <= 0.0 ==> px <= 0.0
  {
    if x > 0.0 {
      MulMono(x, lo, f);
      MulMono(x, f, hi);
    } else {
      MulMono(-x, 0.0, f);
    }
  }

  /** Scaling by a non-negative factor keeps the order of `x` and `y`. */
  lemma ScaleMonotone(f: real, x: real, y: real, px: real, py: real)
    requires f >= 0.0 && x <= y && px == x * f && py == y * f
    ensures px <= py
  {
    MulMono(f, x, y);
  }

  /**
    `v` is the most conservative of the three bounds, clamped at zero: it is
    never negative, never above a bound unless it is the zero floor, is zero or
    one of the bounds, and is positive when all three bounds are.
    This is the meaning of `max(0, min(a, b, c))`.
  */
  predicate IsClampedLeastBound(v: real, a: real, b: real, c: real)
  {
    && v >= 0.0
    && (v == 0.0 || (v <= a && v <= b && v <= c))
    && (v == 0.0 || v == a || v == b || v == c)
    && (a > 0.0 && b > 0.0 && c > 0.0 ==> v > 0.0)
  }

  /** Python's two-argument `min`: the first argument unless the second is smaller. */
  function Min(x: real, y: real): (m: real)
    ensures m <= x && m <= y && (m == x || m == y)
  {
    if y < x then y else x
  }

  /** Python's two-argument `max`: the first argument unless the second is larger. */
  function Max(x: real, y: real): (m: real)
    ensures m >= x && m >= y && (m == x || m == y)
  {
    if y > x then y else x
  }

  /** Python's three-argument `min`: the first of the smallest arguments, in one pass. */
  function Min3(a: real, b: real, c: real): (m: real)
    ensures m <= a && m <= b && m <= c && (m == a || m == b || m == c)
  {
    var m := if b < a then b else a;
    if c < m then c else m
  }

  /** A one-step three-way minimum equals the two-step minimum. */
  lemma Min3IsNestedMin(a: real, b: real, c: real)
    ensures Min3(a, b, c) == Min(Min(a, b), c)
  {
  }

  /** `max(0, min(min(a, b), c))` is the clamped least bound of the three. */
  lemma ClampedMinIsClampedLeastBound(a: real, b: real, c: real)
    ensures IsClampedLeastBound(Max(0.0, Min(Min(a, b), c)), a, b, c)
  {
  }

  /** Raising any of the three bounds never lowers the clamped minimum. */
  lemma ClampedMinMonotone(a1: real, b1: real, c1: real, a2: real, b2: real, c2: real)
    requires a1 <= a2 && b1 <= b2 && c1 <= c2
    ensures Max(0.0, Min(Min(a1, b1), c1)) <= Max(0.0, Min(Min(a2, b2), c2))
  {
  }

  /** The clamped minimum is the only value with the clamped-least-bound property. */
  lemma ClampedLeastBoundUnique(v: real, w: real, a: real, b: real, c: real)
    requires IsClampedLeastBound(v, a, b, c) && IsClampedLeastBound(w, a, b, c)
    ensures v == w
  {
  }
}
