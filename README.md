# LoanRegression decision engine in Dafny

LoanRegression scores loan applicants with a trained model. It then turns the
score into a decision, using rules that appear twice in the repository:

- The BentoML prediction service (`service.py`) exposes the rules as JSON.
- The FastAPI web front end (`api_service.py`) renders the same rules into a
  result page.

This project models those rules and proves properties about them:

- **Risk tiers.** A risk score falls into one of five tiers, A to E. Each tier
  has a label, an interest-rate add-on, an approval recommendation and, in the
  front end, a colour.
- **Loan affordability.** The recommended loan is the most conservative of
  three ceilings, and never below zero:
  - what the spare monthly payment room can service, for a 5% loan over 60
    monthly payments;
  - an income multiple scaled by risk and by a credit-score step;
  - half the annual income.

  When existing debt already uses up the 43% debt-to-income allowance, no loan
  is recommended at all.
- **Response terms.** The prediction response and the result page derive these
  from the tier and the loan:
  - base rate 5%, plus the tier's add-on;
  - an estimated payment of 90% of the payment capacity;
  - the decision message with underscores shown as spaces;
  - the credit score truncated to an integer.

The risk score comes from an opaque model, so it is an input here. So are the
annual income and the monthly debt, which the source recovers from
log-features with `exp`. All amounts are exact reals.

Files:

- `loan_math.dfy` (module `LoanMath`): the present value of the reference
  loan. It holds the closed-form annuity factor, its equality with the sum of
  the discount factors, and its bounds `48 <= factor <= 60`. It also holds
  Python's `min`/`max` and the "clamped least bound" meaning of
  `max(0, min(a, b, c))`.
- `risk_bands.dfy` (module `RiskBands`): the tier table as data. A score's
  tier is the number of cut points `[0.3, 0.5, 0.65, 0.8]` it has reached.
- `service.dfy` (module `Service`): covers `service.py`. That is the tier
  lookup, `recommend_loan_amount` with its tunable parameters, and the
  prediction response.
- `api_service.dfy` (module `ApiService`): covers `api_service.py`. That is the
  tier tuple with colours, the fixed-parameter loan rule with its one-step
  three-way `min`, and the assessment page. It also holds lemmas showing that
  the front end agrees with the service.

## Model

| member | source | states |
|---|---|---|
| LoanMath.Bernoulli | service.py:99-106 | `(1+r)^n >= 1 + n*r` for a non-negative rate. This bounds the growth factor of the loan formula from below. |
| LoanMath.GrowthTimesDeficit | service.py:99-106 | `(1+r)^n * (1 - n*r) <= 1`. This bounds the growth factor from above. |
| LoanMath.AnnuityFactor | service.py:103-106 | The closed-form factor `((1+r)^n - 1)/(r(1+r)^n)`. Its meaning is stated by `AnnuityFactorIsDiscountSum` (it is the sum of the n discount factors) and `AnnuityFactorBounds`. The same factor appears at api_service.py:77-80. |
| LoanMath.AnnuityFactorBounds | service.py:99-106 | The annuity factor `((1+r)^n - 1)/(r(1+r)^n)` lies between `n/(1+n r)` and `n`. |
| LoanMath.AnnuityFactorIsDiscountSum | service.py:99-106 | The closed-form factor equals the sum of the discount factors `1/(1+r)^k` for k = 1..n. So it is the principal that n unit payments repay at rate r. |
| LoanMath.LoanTermFactor | service.py:99-106 | The factor for 60 payments at 5%/12 lies between 48 and 60. |
| LoanMath.MaxLoanFromPayment | service.py:103-106 | The principal the payment room services: the room times the reference loan's factor. Its meaning is stated by `MaxLoanFromPaymentBounds` and `MaxLoanFromPaymentMonotone`. |
| LoanMath.MaxLoanFromPaymentBounds | service.py:103-106 | The principal a positive payment services is between 48 and 60 times the payment, so it is positive. A non-positive payment services no positive principal. |
| LoanMath.MaxLoanFromPaymentMonotone | service.py:103-106 | More monthly payment room never services a smaller principal. |
| LoanMath.Min | service.py:112-116 | Python's two-argument `min`: the result is at most both arguments and is one of them. |
| LoanMath.Max | service.py:119 | Python's two-argument `max`: the result is at least both arguments and is one of them. |
| LoanMath.Min3 | api_service.py:83 | Python's three-argument `min`, one pass from left to right: the result is at most all three arguments and is one of them. |
| LoanMath.Min3IsNestedMin | api_service.py:83 | Python's one-step three-way `min` equals the two-step `min(min(a, b), c)`. |
| LoanMath.ClampedMinIsClampedLeastBound | service.py:112-119 | `max(0, min(min(a, b), c))` has four properties. It is non-negative. It is at most every ceiling unless it is the zero floor. It is zero or one of the ceilings. It is positive when all three ceilings are. |
| LoanMath.ClampedLeastBoundUnique | service.py:112-119 | Exactly one value has the clamped-least-bound property. So that property fully specifies the recommendation. |
| LoanMath.ClampedMinMonotone | service.py:112-119 | Raising any ceiling never lowers the recommendation. |
| RiskBands.BandIndex | service.py:125-166 | Every real score, including negative scores and scores above 1, gets one of the five tiers. |
| RiskBands.BandIndexIntervals | service.py:127-160 | The tiers are the half-open intervals: below 0.3, [0.3, 0.5), [0.5, 0.65), [0.65, 0.8), and 0.8 or more. Each direction of each interval holds. |
| RiskBands.CountReachedMonotone | service.py:125-166 | A higher score never reaches fewer cut points. |
| RiskBands.DecisionFor | service.py:125-166 | Each tier code is paired with its recommendation at the same table position: A AUTO_APPROVE, B APPROVE, C MANUAL_REVIEW, D MANUAL_REVIEW_REQUIRED, E DECLINE. |
| RiskBands.TableAscending | service.py:125-166 | Along the table, the codes move to later letters and the rate add-ons grow. Every add-on lies in [0, 5]. |
| Service.GetRiskTierInfo | service.py:125-166 | The label, code, rate add-on, recommendation and description are the table entries at the score's band. The recommendation is the one paired with the code. |
| Service.TierMonotone | service.py:125-166 | A higher score never gets an earlier tier letter or a smaller rate add-on. |
| Service.TierBoundaries | service.py:127-152 | Each cut point belongs to the tier above it: 0.3 is B and 0.8 is E. Just below 0.3 is A. |
| Service.CreditAdjustment | service.py:75-85 | The credit multiplier is one of 0.6, 0.8, 1.0, 1.1, 1.2, so it lies in [0.6, 1.2]. |
| Service.CreditAdjustmentMonotone | service.py:75-85 | A better credit score never lowers the multiplier. |
| Service.CreditAdjustmentBoundaries | service.py:75-85 | Each band starts at its threshold: 750 gives 1.2 and 749 gives 1.1, 700 gives 1.1 and 699 gives 1.0, and so on down to 599, which gives 0.6. |
| Service.AvailablePayment | service.py:88-90 | The monthly payment room: the monthly income times the debt-to-income ratio, less the existing debt. `MaxLoanNonIncreasingInDebt` states that more debt never raises the outcome, and `RecommendLoanAmount` states that the room decides the early answer. |
| Service.RiskAdjustedMultiplier | service.py:73 | The base multiple scaled by `1 - risk`. `MultiplierNonIncreasingInRisk` states that it never rises with the score. |
| Service.IncomeCeiling | service.py:109 | The income ceiling: income times the risk-adjusted multiple times the credit multiplier. `IncomeCeilingMonotoneInMultiplier` and `IncomeCeilingMonotoneInCredit` state that it grows with each multiplier. |
| Service.AbsoluteCap | service.py:115 | Half the annual income. `RecommendLoanAmount` states that the amount never exceeds it when the income is non-negative. |
| Service.RecommendLoanAmount | service.py:61-123 | The early "no capacity" answer, with its reason, is given exactly when the payment room is at most zero. Otherwise it reports the room, the risk-adjusted multiplier and the credit multiplier, and the amount is the clamped least bound of the three ceilings. The reported amount and capacity are never negative. With a non-negative income, the amount is at most half the income. |
| Service.MultiplierNonIncreasingInRisk | service.py:73 | With a non-negative base multiple, a higher score never raises the risk-adjusted multiplier. |
| Service.IncomeCeilingMonotoneInMultiplier | service.py:109 | With non-negative income and credit multiplier, the income ceiling grows with the multiplier. |
| Service.IncomeCeilingMonotoneInCredit | service.py:109 | With non-negative income and multiplier, the income ceiling grows with the credit multiplier. |
| Service.MaxLoanNonIncreasingInRisk | service.py:61-123 | With non-negative income and base multiple, a riskier applicant is never recommended more. |
| Service.MaxLoanNonIncreasingInDebt | service.py:87-123 | More existing monthly debt never gives a larger recommendation or a larger payment capacity. |
| Service.MaxLoanNonDecreasingInCredit | service.py:75-123 | With non-negative income and base multiple and a score of at most 1, a better credit score never gives a smaller recommendation. |
| Service.Predict | service.py:241-297 | The response carries the customer id, or "UNKNOWN" when the key is absent. It copies the score, income and credit score from the inputs. Its label, code, description and decision are the table entries at the score's band. The approved amount and the capacity are those of `RecommendLoanAmount` at the default multiple 0.3 and ratio 0.43. The adjusted rate is 5 plus the tier's add-on, so it lies in [5, 10]. The estimated payment is 0.9 times the capacity, so it lies between 0 and the capacity. The approved amount is non-negative and at most half a non-negative income. When the payment room is at most zero, both the amount and the capacity are 0. |
| Service.PredictMonotoneInRisk | service.py:273-297 | With a non-negative income, a riskier applicant never gets a lower rate or a larger approved amount. |
| ApiService.GetRiskTierInfo | api_service.py:90-100 | The label, code, add-on, decision, shorter description and colour are the table entries at the score's band. Scores below 0.3, negative ones included, are A. Scores of 0.8 or more, those above 1 included, are E. |
| ApiService.TierAgreesWithService | api_service.py:90-100 | For every score, the front end and the service give the same tier, code, rate add-on and decision. |
| ApiService.CreditAdjustment | api_service.py:59-65 | The credit multiplier for a real-valued score lies in [0.6, 1.2]. |
| ApiService.CreditAdjustmentIsFloorOfService | api_service.py:59-65 | For a real-valued score, the multiplier equals the service's multiplier for the score rounded down. |
| ApiService.CreditAdjustmentMonotone | api_service.py:59-65 | A better real-valued credit score never lowers the multiplier. |
| ApiService.RecommendLoanAmount | api_service.py:53-88 | When the payment room is at most zero, the answer is exactly {0, 0}. Otherwise the capacity is the room, and the amount is the clamped least bound of the payment, income and half-income ceilings. Both are non-negative. The amount is at most half a non-negative income. |
| ApiService.RecommendAgreesWithService | api_service.py:53-88 | The fixed-parameter rule with its three-way `min` returns the service's amount and capacity. The service runs at its defaults 0.3 and 0.43, with the credit score rounded down. |
| ApiService.WorkedExample | api_service.py:53-88 | Risk 0.2, income 1,200,000, debt 20,000 and credit 780 give capacity 23,000 and amount 345,600. The binding ceiling is the income ceiling. |
| ApiService.DebtExhaustedExample | api_service.py:67-72 | Risk 0.9, income 500,000, debt 18,000 and credit 580 give {0, 0}. |
| ApiService.SpaceForUnderscore | api_service.py:169 | The message has the decision's length, with every underscore replaced by a space and every other character kept. |
| ApiService.SpaceForUnderscoreClears | api_service.py:169 | The message contains no underscore, and replacing again changes nothing. |
| ApiService.TruncateTowardZero | api_service.py:176 | `int(x)` for a non-negative x is the largest integer not above x. For a negative x it is the smallest integer not below x. |
| ApiService.Assess | api_service.py:153-178 | The customer id, score and income are passed through. The tier label, code, description, decision, colour and adjusted rate are the entries at the score's band. The decision colour is the tier colour. The message is `SpaceForUnderscore` of the decision: each underscore becomes a space and every other character is kept. The amount and the capacity are those of `RecommendLoanAmount`. The base rate is 5 and the adjusted rate lies in [5, 10]. The estimated payment is 0.9 times the capacity. The amount is non-negative and capped. The credit score is truncated toward zero. |
| ApiService.AssessAgreesWithPredict | api_service.py:153-178 | For a whole-number credit score, the page shows what the prediction service returns: the same customer, tier, code, decision, amounts, estimated payment, rates and credit score. |

## Left out

- Model loading, the pickled prediction pipeline and its prediction are not modelled. The risk score is an input of every operation.
- The `np.exp` of the log-features that yields annual income and monthly debt is not modelled. Those amounts are inputs.
- Database logging and queries, and the outcome-logging, performance and health endpoints, are not modelled. They are I/O with no decision logic.
- The `try`/`except` of the prediction endpoint and its error dictionary are not modelled. The modelled functions are total, so no exception arises in them.
- A `customer_id` key present with an explicit null is not modelled. The source passes that null through; here the id is either absent (`None`, reported as "UNKNOWN") or a string.
- Timestamps and the model version in the response metadata are not modelled. They come from the clock and the configuration file.
- The HTML templates and the form parsing of the front end are not modelled. `Assess` returns the values the template is filled with.
- `setup_database.py` and `test_prediction.py` are not part of this model.
- IEEE-754 rounding, NaN and infinities are not modelled. Amounts, scores and rates are exact reals, so equalities such as the worked example's 345,600 are exact here. In floating point they hold only up to rounding.
- Service.RecommendLoanAmount: the credit score is an `int`, as the parameter annotation says. A real-valued score is covered by `ApiService.CreditAdjustmentIsFloorOfService`, since every band starts at a whole number.
- Service.RecommendLoanAmount: the early answer's amount and capacity are the integer `0` in the source. They are the real `0.0` here.
- LoanMath.MaxLoanFromPaymentBounds: states the bounds 48 and 60 rather than the exact value of the factor (about 52.99). The exact value would need the 60th power evaluated numerically.
