/**
  The decision engine of the BentoML service (service.py): the five-tier risk
  lookup, the loan-affordability rule with its tunable multiplier and
  debt-to-income ratio, and the lending terms that the prediction endpoint
  derives from them. The risk score comes from an opaque model and is an input.
*/
module Service {
  import opened LoanMath
  import opened RiskBands

  // ---------------------------------------------------------------------------
  // Risk tiers
  // ---------------------------------------------------------------------------

  /** The dictionary returned by the tier lookup. */
  datatype RiskTierInfo = RiskTierInfo(
    tier: string,
    tierCode: char,
    interestRateAdjustment: real,
    approvalRecommendation: string,
    description: string)

  /** Tier descriptions of the prediction service, in table order. */
  const DESCRIPTIONS: seq<string> := [
    "Excellent credit profile, minimal risk",
    "Good credit profile, standard terms",
    "Acceptable risk with conditions",
    "Elevated risk, requires careful review",
    "Significant risk factors present"]

  /**
    First matching half-open band wins: below 0.3 is A, then B below 0.5,
    C below 0.65, D below 0.8, and everything else (including scores above 1) E.
  */
  function GetRiskTierInfo(riskScore: real): (t: RiskTierInfo)
    ensures var k := BandIndex(riskScore);
      && t.tier == LABELS[k]
      && t.tierCode == CODES[k]
      && t.interestRateAdjustment == RATE_ADJUSTMENTS[k]
      && t.approvalRecommendation == DECISIONS[k]
      && t.description == DESCRIPTIONS[k]
    ensures t.approvalRecommendation == DecisionFor(t.tierCode)
  {
    BandIndexIntervals(riskScore);
    if riskScore < 0.3 then
      RiskTierInfo("Low Risk", 'A', 0.0, "AUTO_APPROVE", "Excellent credit profile, minimal risk")
    else if riskScore < 0.5 then
      RiskTierInfo("Medium-Low Risk", 'B', 1.0, "APPROVE", "Good credit profile, standard terms")
    else if riskScore < 0.65 then
      RiskTierInfo("Medium Risk", 'C', 2.0, "MANUAL_REVIEW", "Acceptable risk with conditions")
    else if riskScore < 0.8 then
      RiskTierInfo("Medium-High Risk", 'D', 3.5, "MANUAL_REVIEW_REQUIRED", "Elevated risk, requires careful review")
    else
      RiskTierInfo("High Risk", 'E', 5.0, "DECLINE", "Significant risk factors present")
  }

  /** A higher score never moves to an earlier tier letter nor to a smaller rate adjustment. */
  lemma TierMonotone(s1: real, s2: real)
    requires s1 <= s2
    ensures GetRiskTierInfo(s1).tierCode <= GetRiskTierInfo(s2).tierCode
    ensures GetRiskTierInfo(s1).interestRateAdjustment <= GetRiskTierInfo(s2).interestRateAdjustment
  {
    CountReachedMonotone(THRESHOLDS, s1, s2);
    TableAscending(BandIndex(s1), BandIndex(s2));
  }

  /** The tier boundaries are half-open: each cut point belongs to the tier above it. */
  lemma TierBoundaries()
    ensures GetRiskTierInfo(0.2999999).tierCode == 'A'
    ensures GetRiskTierInfo(0.3).tierCode == 'B'
    ensures GetRiskTierInfo(0.5).tierCode == 'C'
    ensures GetRiskTierInfo(0.65).tierCode == 'D'
    ensures GetRiskTierInfo(0.8).tierCode == 'E'
  {
  }

  // ---------------------------------------------------------------------------
  // Loan affordability
  // ---------------------------------------------------------------------------

  const DEFAULT_BASE_MULTIPLIER: real := 0.3
  const DEFAULT_MAX_DTI_RATIO: real := 0.43
  /** The recommendation never exceeds this share of the annual income. */
  const ABSOLUTE_CAP_SHARE: real := 0.5
  const DTI_AT_MAXIMUM_REASON: string := "Debt-to-income ratio already at maximum"

  /** Step multiplier on the income-based ceiling, keyed to credit-score bands. */
  function CreditAdjustment(creditScore: int): (a: real)
    ensures 0.6 <= a <= 1.2
    ensures a == 0.6 || a == 0.8 || a == 1.0 || a == 1.1 || a == 1.2
  {
    if creditScore >= 750 then 1.2
    else if creditScore >= 700 then 1.1
    else if creditScore >= 650 then 1.0
    else if creditScore >= 600 then 0.8
    else 0.6
  }

  /** A better credit score never lowers the adjustment. */
  lemma CreditAdjustmentMonotone(c1: int, c2: int)
    requires c1 <= c2
    ensures CreditAdjustment(c1) <= CreditAdjustment(c2)
  {
  }

  /** Scores on either side of a band start get different multipliers. */
  lemma CreditAdjustmentBoundaries()
    ensures CreditAdjustment(750) == 1.2 && CreditAdjustment(749) == 1.1
    ensures CreditAdjustment(700) == 1.1 && CreditAdjustment(699) == 1.0
    ensures CreditAdjustment(650) == 1.0 && CreditAdjustment(649) == 0.8
    ensures CreditAdjustment(600) == 0.8 && CreditAdjustment(599) == 0.6
  {
  }

  /** The result dictionary: either the early "no capacity" answer or the full recommendation. */
  datatype LoanRecommendation =
    | DtiAtMaximum(reason: string)
    | Recommended(
        recommendedMaxLoan: real,
        monthlyPaymentCapacity: real,
        riskAdjustedMultiplier: real,
        creditAdjustment: real)
  {
    /** The `recommended_max_loan` entry, present in both shapes (0 in the early answer). */
    function MaxLoan(): real
    {
      if DtiAtMaximum? then 0.0 else recommendedMaxLoan
    }

    /** The `monthly_payment_capacity` entry, present in both shapes (0 in the early answer). */
    function PaymentCapacity(): real
    {
      if DtiAtMaximum? then 0.0 else monthlyPaymentCapacity
    }
  }

  /** Monthly payment room left under the debt-to-income ceiling. */
  function AvailablePayment(annualIncome: real, existingMonthlyDebt: real, maxDtiRatio: real): real
  {
    var monthlyIncome := annualIncome / 12.0;
    var maxTotalMonthlyDebt := monthlyIncome * maxDtiRatio;
    maxTotalMonthlyDebt - existingMonthlyDebt
  }

  /** The base income multiple, reduced in proportion to the risk score. */
  function RiskAdjustedMultiplier(baseMultiplier: real, riskScore: real): real
  {
    baseMultiplier * (1.0 - riskScore)
  }

  /** The income-based ceiling: income times the risk-adjusted multiple times the credit adjustment. */
  function IncomeCeiling(annualIncome: real, multiplier: real, creditAdjustment: real): real
  {
    annualIncome * multiplier * creditAdjustment
  }

  /** The absolute ceiling: a fixed share of the annual income. */
  function AbsoluteCap(annualIncome: real): real
  {
    annualIncome * ABSOLUTE_CAP_SHARE
  }

  /**
    The most conservative of three ceilings (what the payment room can
    service, an income multiple scaled by risk and credit, and half the
    annual income), never below zero; no loan at all when the existing debt
    already uses up the debt-to-income allowance.
  */
  function RecommendLoanAmount(
    riskScore: real,
    annualIncome: real,
    existingMonthlyDebt: real,
    creditScore: int,
    baseMultiplier: real,
    maxDtiRatio: real): (r: LoanRecommendation)
    ensures var available := AvailablePayment(annualIncome, existingMonthlyDebt, maxDtiRatio);
      && (r.DtiAtMaximum? <==> available <= 0.0)
      && (r.DtiAtMaximum? ==> r.reason == DTI_AT_MAXIMUM_REASON)
      && (r.Recommended? ==>
            && r.monthlyPaymentCapacity == available
            && r.riskAdjustedMultiplier == RiskAdjustedMultiplier(baseMultiplier, riskScore)
            && r.creditAdjustment == CreditAdjustment(creditScore)
            && IsClampedLeastBound(
                 r.recommendedMaxLoan,
                 MaxLoanFromPayment(available),
                 IncomeCeiling(annualIncome, r.riskAdjustedMultiplier, r.creditAdjustment),
                 AbsoluteCap(annualIncome)))
    ensures r.MaxLoan() >= 0.0 && r.PaymentCapacity() >= 0.0
    ensures AbsoluteCap(annualIncome) >= 0.0 ==> r.MaxLoan() <= AbsoluteCap(annualIncome)
  {
    var riskAdjustedMultiplier := RiskAdjustedMultiplier(baseMultiplier, riskScore);
    var creditAdjustment := CreditAdjustment(creditScore);
    var available := AvailablePayment(annualIncome, existingMonthlyDebt, maxDtiRatio);
    if available <= 0.0 then
      DtiAtMaximum(DTI_AT_MAXIMUM_REASON)
    else
      var fromPayment := MaxLoanFromPayment(available);
      var fromIncome := IncomeCeiling(annualIncome, riskAdjustedMultiplier, creditAdjustment);
      var recommended := Min(fromPayment, fromIncome);
      var absoluteMax := AbsoluteCap(annualIncome);
      ClampedMinIsClampedLeastBound(fromPayment, fromIncome, absoluteMax);
      Recommended(Max(0.0, Min(recommended, absoluteMax)), available, riskAdjustedMultiplier, creditAdjustment)
  }

  /** The recommended amount of the full answer, spelled out for the monotonicity proofs. */
  lemma MaxLoanFormula(riskScore: real, income: real, debt: real, creditScore: int, base: real, dti: real)
    requires AvailablePayment(income, debt, dti) > 0.0
    ensures RecommendLoanAmount(riskScore, income, debt, creditScore, base, dti).MaxLoan()
         == Max(0.0, Min(Min(MaxLoanFromPayment(AvailablePayment(income, debt, dti)),
                             IncomeCeiling(income, RiskAdjustedMultiplier(base, riskScore), CreditAdjustment(creditScore))),
                         AbsoluteCap(income)))
  {
  }

  /** With a non-negative base multiple, a higher score never raises the multiplier. */
  lemma MultiplierNonIncreasingInRisk(base: real, s1: real, s2: real)
    requires base >= 0.0 && s1 <= s2
    ensures RiskAdjustedMultiplier(base, s2) <= RiskAdjustedMultiplier(base, s1)
  {
    MulMono(base, 1.0 - s2, 1.0 - s1);
  }

  /** With a non-negative income and credit adjustment, the income ceiling grows with the multiplier. */
  lemma IncomeCeilingMonotoneInMultiplier(income: real, m1: real, m2: real, c: real)
    requires income >= 0.0 && m1 <= m2 && c >= 0.0
    ensures IncomeCeiling(income, m1, c) <= IncomeCeiling(income, m2, c)
  {
    MulMono(income, m1, m2);
    MulMono(c, income * m1, income * m2);
  }

  /** With a non-negative income and multiplier, the income ceiling grows with the credit adjustment. */
  lemma IncomeCeilingMonotoneInCredit(income: real, m: real, c1: real, c2: real)
    requires income >= 0.0 && m >= 0.0 && c1 <= c2
    ensures IncomeCeiling(income, m, c1) <= IncomeCeiling(income, m, c2)
  {
    MulMono(income, 0.0, m);
    MulMono(income * m, c1, c2);
  }

  /**
    With a non-negative income and base multiplier and everything else fixed,
    a riskier applicant is never recommended a larger loan.
  */
  lemma MaxLoanNonIncreasingInRisk(
    s1: real, s2: real, income: real, debt: real, creditScore: int, base: real, dti: real)
    requires s1 <= s2 && income >= 0.0 && base >= 0.0
    ensures RecommendLoanAmount(s2, income, debt, creditScore, base, dti).MaxLoan()
         <= RecommendLoanAmount(s1, income, debt, creditScore, base, dti).MaxLoan()
  {
    if AvailablePayment(income, debt, dti) > 0.0 {
      MultiplierNonIncreasingInRisk(base, s1, s2);
      IncomeCeilingMonotoneInMultiplier(
        income, RiskAdjustedMultiplier(base, s2), RiskAdjustedMultiplier(base, s1), CreditAdjustment(creditScore));
      MaxLoanFormula(s1, income, debt, creditScore, base, dti);
      MaxLoanFormula(s2, income, debt, creditScore, base, dti);
      ClampedMinMonotone(
        MaxLoanFromPayment(AvailablePayment(income, debt, dti)),
        IncomeCeiling(income, RiskAdjustedMultiplier(base, s2), CreditAdjustment(creditScore)),
        AbsoluteCap(income),
        MaxLoanFromPayment(AvailablePayment(income, debt, dti)),
        IncomeCeiling(income, RiskAdjustedMultiplier(base, s1), CreditAdjustment(creditScore)),
        AbsoluteCap(income));
    }
  }

  /** With everything else fixed, more existing debt never yields a larger recommendation nor more capacity. */
  lemma MaxLoanNonIncreasingInDebt(
    riskScore: real, income: real, d1: real, d2: real, creditScore: int, base: real, dti: real)
    requires d1 <= d2
    ensures RecommendLoanAmount(riskScore, income, d2, creditScore, base, dti).MaxLoan()
         <= RecommendLoanAmount(riskScore, income, d1, creditScore, base, dti).MaxLoan()
    ensures RecommendLoanAmount(riskScore, income, d2, creditScore, base, dti).PaymentCapacity()
         <= RecommendLoanAmount(riskScore, income, d1, creditScore, base, dti).PaymentCapacity()
  {
    if AvailablePayment(income, d2, dti) > 0.0 {
      MaxLoanFromPaymentMonotone(AvailablePayment(income, d2, dti), AvailablePayment(income, d1, dti));
      MaxLoanFormula(riskScore, income, d1, creditScore, base, dti);
      MaxLoanFormula(riskScore, income, d2, creditScore, base, dti);
      ClampedMinMonotone(
        MaxLoanFromPayment(AvailablePayment(income, d2, dti)),
        IncomeCeiling(income, RiskAdjustedMultiplier(base, riskScore), CreditAdjustment(creditScore)),
        AbsoluteCap(income),
        MaxLoanFromPayment(AvailablePayment(income, d1, dti)),
        IncomeCeiling(income, RiskAdjustedMultiplier(base, riskScore), CreditAdjustment(creditScore)),
        AbsoluteCap(income));
    }
  }

  /**
    With a non-negative income and base multiplier and a score of at most 1,
    a better credit score never yields a smaller recommendation.
  */
  lemma MaxLoanNonDecreasingInCredit(
    riskScore: real, income: real, debt: real, c1: int, c2: int, base: real, dti: real)
    requires c1 <= c2 && income >= 0.0 && base >= 0.0 && riskScore <= 1.0
    ensures RecommendLoanAmount(riskScore, income, debt, c1, base, dti).MaxLoan()
         <= RecommendLoanAmount(riskScore, income, debt, c2, base, dti).MaxLoan()
  {
    if AvailablePayment(income, debt, dti) > 0.0 {
      MulMono(base, 0.0, 1.0 - riskScore);
      CreditAdjustmentMonotone(c1, c2);
      IncomeCeilingMonotoneInCredit(
        income, RiskAdjustedMultiplier(base, riskScore), CreditAdjustment(c1), CreditAdjustment(c2));
      MaxLoanFormula(riskScore, income, debt, c1, base, dti);
      MaxLoanFormula(riskScore, income, debt, c2, base, dti);
      ClampedMinMonotone(
        MaxLoanFromPayment(AvailablePayment(income, debt, dti)),
        IncomeCeiling(income, RiskAdjustedMultiplier(base, riskScore), CreditAdjustment(c1)),
        AbsoluteCap(income),
        MaxLoanFromPayment(AvailablePayment(income, debt, dti)),
        IncomeCeiling(income, RiskAdjustedMultiplier(base, riskScore), CreditAdjustment(c2)),
        AbsoluteCap(income));
    }
  }

  // ---------------------------------------------------------------------------
  // Lending terms of the prediction response
  // ---------------------------------------------------------------------------

  const BASE_INTEREST_RATE: real := 5.0
  /** Share of the payment capacity quoted as the estimated monthly payment. */
  const ESTIMATED_PAYMENT_SHARE: real := 0.9

  /** A request field that may be missing. */
  datatype Option<T> = None | Some(value: T)

  /** Identifier reported when the request carries none. */
  const UNKNOWN_CUSTOMER: string := "UNKNOWN"

  /** The risk-assessment, loan-recommendation and lending-terms parts of the response. */
  datatype PredictionResponse = PredictionResponse(
    customerId: string,
    riskScore: real,
    riskTier: string,
    riskTierCode: char,
    description: string,
    maxApprovedAmount: real,
    monthlyPaymentCapacity: real,
    estimatedMonthlyPayment: real,
    baseInterestRate: real,
    riskAdjustedRate: real,
    approvalDecision: string,
    annualIncome: real,
    creditScore: int)

  /**
    Assembles the response for a scored applicant, calling the loan rule with
    its default multiplier and debt-to-income ratio.
  */
  function Predict(
    customerId: Option<string>, riskScore: real, annualIncome: real, monthlyDebt: real, creditScore: int): (p: PredictionResponse)
    ensures customerId.Some? ==> p.customerId == customerId.value
    ensures customerId.None? ==> p.customerId == UNKNOWN_CUSTOMER
    ensures p.riskScore == riskScore && p.annualIncome == annualIncome && p.creditScore == creditScore
    ensures p.riskTierCode == CODES[BandIndex(riskScore)]
    ensures p.riskTier == LABELS[BandIndex(riskScore)] && p.description == DESCRIPTIONS[BandIndex(riskScore)]
    ensures p.approvalDecision == DecisionFor(p.riskTierCode)
    ensures p.baseInterestRate == BASE_INTEREST_RATE
    ensures p.riskAdjustedRate == BASE_INTEREST_RATE + RATE_ADJUSTMENTS[BandIndex(riskScore)]
    ensures BASE_INTEREST_RATE <= p.riskAdjustedRate <= 10.0
    ensures p.estimatedMonthlyPayment == ESTIMATED_PAYMENT_SHARE * p.monthlyPaymentCapacity
    ensures 0.0 <= p.estimatedMonthlyPayment <= p.monthlyPaymentCapacity
    ensures var loan := RecommendLoanAmount(
              riskScore, annualIncome, monthlyDebt, creditScore, DEFAULT_BASE_MULTIPLIER, DEFAULT_MAX_DTI_RATIO);
      p.maxApprovedAmount == loan.MaxLoan() && p.monthlyPaymentCapacity == loan.PaymentCapacity()
    ensures p.maxApprovedAmount >= 0.0
    ensures annualIncome >= 0.0 ==> p.maxApprovedAmount <= AbsoluteCap(annualIncome)
    ensures AvailablePayment(annualIncome, monthlyDebt, DEFAULT_MAX_DTI_RATIO) <= 0.0 ==>
              p.maxApprovedAmount == 0.0 && p.monthlyPaymentCapacity == 0.0
  {
    var info := GetRiskTierInfo(riskScore);
    var loan := RecommendLoanAmount(
      riskScore, annualIncome, monthlyDebt, creditScore, DEFAULT_BASE_MULTIPLIER, DEFAULT_MAX_DTI_RATIO);
    TableAscending(BandIndex(riskScore), BandIndex(riskScore));
    PredictionResponse(
      if customerId.Some? then customerId.value else UNKNOWN_CUSTOMER,
      riskScore, info.tier, info.tierCode, info.description,
      loan.MaxLoan(), loan.PaymentCapacity(), loan.PaymentCapacity() * ESTIMATED_PAYMENT_SHARE,
      BASE_INTEREST_RATE, BASE_INTEREST_RATE + info.interestRateAdjustment,
      info.approvalRecommendation, annualIncome, creditScore)
  }

  /**
    A riskier applicant (other inputs fixed, income non-negative) never gets
    a lower rate nor a larger approved amount.
  */
  lemma PredictMonotoneInRisk(
    id: Option<string>, s1: real, s2: real, income: real, debt: real, creditScore: int)
    requires s1 <= s2 && income >= 0.0
    ensures Predict(id, s1, income, debt, creditScore).riskAdjustedRate
         <= Predict(id, s2, income, debt, creditScore).riskAdjustedRate
    ensures Predict(id, s2, income, debt, creditScore).maxApprovedAmount
         <= Predict(id, s1, income, debt, creditScore).maxApprovedAmount
  {
    TierMonotone(s1, s2);
    MaxLoanNonIncreasingInRisk(s1, s2, income, debt, creditScore, DEFAULT_BASE_MULTIPLIER, DEFAULT_MAX_DTI_RATIO);
  }
}
