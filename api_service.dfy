/**
  The web front end's copy of the decision engine (api_service.py): the same
  five risk tiers, now carrying a display colour and shorter descriptions,
  the loan-affordability rule with its parameters fixed and a one-step
  three-way minimum, and the values the assessment page is filled with.
  The credit score arrives from a form as a real number.
*/
module ApiService {
  import opened LoanMath
  import opened RiskBands
  import Service

  // ---------------------------------------------------------------------------
  // Risk tiers
  // ---------------------------------------------------------------------------

  /** Display colour of each tier, in table order. */
  const COLORS: seq<string> := ["#28a745", "#5cb85c", "#ffc107", "#ff9800", "#dc3545"]

  /** Tier descriptions of the front end, shorter than the prediction service's, in table order. */
  const DESCRIPTIONS: seq<string> := [
    "Excellent credit profile", "Good credit profile", "Acceptable risk", "Elevated risk", "Significant risk"]

  /** The six-field tuple returned by the tier lookup. */
  datatype TierInfo = TierInfo(
    tier: string,
    code: char,
    rateAdjustment: real,
    decision: string,
    description: string,
    color: string)

  /** First matching half-open band wins; scores outside [0, 1] fall in A or E. */
  function GetRiskTierInfo(riskScore: real): (t: TierInfo)
    ensures var k := BandIndex(riskScore);
      && t.tier == LABELS[k]
      && t.code == CODES[k]
      && t.rateAdjustment == RATE_ADJUSTMENTS[k]
      && t.decision == DECISIONS[k]
      && t.description == DESCRIPTIONS[k]
      && t.color == COLORS[k]
    ensures riskScore < 0.3 ==> t.code == 'A'
    ensures riskScore >= 0.8 ==> t.code == 'E'
  {
    BandIndexIntervals(riskScore);
    if riskScore < 0.3 then
      TierInfo("Low Risk", 'A', 0.0, "AUTO_APPROVE", "Excellent credit profile", "#28a745")
    else if riskScore < 0.5 then
      TierInfo("Medium-Low Risk", 'B', 1.0, "APPROVE", "Good credit profile", "#5cb85c")
    else if riskScore < 0.65 then
      TierInfo("Medium Risk", 'C', 2.0, "MANUAL_REVIEW", "Acceptable risk", "#ffc107")
    else if riskScore < 0.8 then
      TierInfo("Medium-High Risk", 'D', 3.5, "MANUAL_REVIEW_REQUIRED", "Elevated risk", "#ff9800")
    else
      TierInfo("High Risk", 'E', 5.0, "DECLINE", "Significant risk", "#dc3545")
  }

  /** Both services put every score in the same tier with the same rate adjustment and decision. */
  lemma TierAgreesWithService(riskScore: real)
    ensures GetRiskTierInfo(riskScore).tier == Service.GetRiskTierInfo(riskScore).tier
    ensures GetRiskTierInfo(riskScore).code == Service.GetRiskTierInfo(riskScore).tierCode
    ensures GetRiskTierInfo(riskScore).rateAdjustment == Service.GetRiskTierInfo(riskScore).interestRateAdjustment
    ensures GetRiskTierInfo(riskScore).decision == Service.GetRiskTierInfo(riskScore).approvalRecommendation
  {
  }

  // ---------------------------------------------------------------------------
  // Loan affordability
  // ---------------------------------------------------------------------------

  const BASE_MULTIPLIER: real := 0.3
  const MAX_DTI_RATIO: real := 0.43

  /** The credit-score step multiplier, on a real-valued score. */
  function CreditAdjustment(creditScore: real): (a: real)
    ensures 0.6 <= a <= 1.2
  {
    if creditScore >= 750.0 then 1.2
    else if creditScore >= 700.0 then 1.1
    else if creditScore >= 650.0 then 1.0
    else if creditScore >= 600.0 then 0.8
    else 0.6
  }

  /**
    On a real score the step multiplier is the integer one applied to the
    score rounded down, since every band starts at a whole number.
  */
  lemma CreditAdjustmentIsFloorOfService(creditScore: real)
    ensures CreditAdjustment(creditScore) == Service.CreditAdjustment(creditScore.Floor)
  {
  }

  /** A better credit score never lowers the multiplier. */
  lemma CreditAdjustmentMonotone(c1: real, c2: real)
    requires c1 <= c2
    ensures CreditAdjustment(c1) <= CreditAdjustment(c2)
  {
  }

  /** The result dictionary: both entries are present on every path. */
  datatype LoanSummary = LoanSummary(recommendedMaxLoan: real, monthlyPaymentCapacity: real)

  /**
    The most conservative of the three ceilings, never below zero; zero and
    zero when the existing debt already uses up the debt-to-income allowance.
  */
  function RecommendLoanAmount(
    riskScore: real,
    annualIncome: real,
    existingMonthlyDebt: real,
    creditScore: real): (r: LoanSummary)
    ensures var available := Service.AvailablePayment(annualIncome, existingMonthlyDebt, MAX_DTI_RATIO);
      && (available <= 0.0 ==> r == LoanSummary(0.0, 0.0))
      && (available > 0.0 ==>
            && r.monthlyPaymentCapacity == available
            && IsClampedLeastBound(
                 r.recommendedMaxLoan,
                 MaxLoanFromPayment(available),
                 Service.IncomeCeiling(
                   annualIncome,
                   Service.RiskAdjustedMultiplier(BASE_MULTIPLIER, riskScore),
                   CreditAdjustment(creditScore)),
                 Service.AbsoluteCap(annualIncome)))
    ensures r.recommendedMaxLoan >= 0.0 && r.monthlyPaymentCapacity >= 0.0
    ensures Service.AbsoluteCap(annualIncome) >= 0.0 ==> r.recommendedMaxLoan <= Service.AbsoluteCap(annualIncome)
  {
    var riskAdjustedMultiplier := Service.RiskAdjustedMultiplier(BASE_MULTIPLIER, riskScore);
    var creditAdjustment := CreditAdjustment(creditScore);
    var available := Service.AvailablePayment(annualIncome, existingMonthlyDebt, MAX_DTI_RATIO);
    if available <= 0.0 then
      LoanSummary(0.0, 0.0)
    else
      var fromPayment := MaxLoanFromPayment(available);
      var fromIncome := Service.IncomeCeiling(annualIncome, riskAdjustedMultiplier, creditAdjustment);
      var absoluteMax := Service.AbsoluteCap(annualIncome);
      Min3IsNestedMin(fromPayment, fromIncome, absoluteMax);
      ClampedMinIsClampedLeastBound(fromPayment, fromIncome, absoluteMax);
      LoanSummary(Max(0.0, Min3(fromPayment, fromIncome, absoluteMax)), available)
  }

  /**
    The front end's rule is the service's rule at its default multiplier and
    debt-to-income ratio, with the credit score rounded down.
  */
  lemma RecommendAgreesWithService(riskScore: real, annualIncome: real, existingMonthlyDebt: real, creditScore: real)
    ensures var s := Service.RecommendLoanAmount(
              riskScore, annualIncome, existingMonthlyDebt, creditScore.Floor,
              Service.DEFAULT_BASE_MULTIPLIER, Service.DEFAULT_MAX_DTI_RATIO);
      RecommendLoanAmount(riskScore, annualIncome, existingMonthlyDebt, creditScore)
        == LoanSummary(s.MaxLoan(), s.PaymentCapacity())
  {
    var available := Service.AvailablePayment(annualIncome, existingMonthlyDebt, MAX_DTI_RATIO);
    CreditAdjustmentIsFloorOfService(creditScore);
    if available > 0.0 {
      var fromPayment := MaxLoanFromPayment(available);
      var fromIncome := Service.IncomeCeiling(
        annualIncome, Service.RiskAdjustedMultiplier(BASE_MULTIPLIER, riskScore), CreditAdjustment(creditScore));
      Min3IsNestedMin(fromPayment, fromIncome, Service.AbsoluteCap(annualIncome));
    }
  }

  /**
    A high-income, low-risk applicant: the payment room is 23000 a month and
    the income ceiling, 345600, is the binding one.
  */
  lemma WorkedExample()
    ensures RecommendLoanAmount(0.2, 1200000.0, 20000.0, 780.0) == LoanSummary(345600.0, 23000.0)
  {
    assert Service.AvailablePayment(1200000.0, 20000.0, MAX_DTI_RATIO) == 23000.0;
    MaxLoanFromPaymentBounds(23000.0);
    assert Service.IncomeCeiling(1200000.0, Service.RiskAdjustedMultiplier(BASE_MULTIPLIER, 0.2), 1.2) == 345600.0;
  }

  /** Existing debt above the allowance: no loan and no capacity. */
  lemma DebtExhaustedExample()
    ensures RecommendLoanAmount(0.9, 500000.0, 18000.0, 580.0) == LoanSummary(0.0, 0.0)
  {
    assert Service.AvailablePayment(500000.0, 18000.0, MAX_DTI_RATIO) < 0.0;
  }

  // ---------------------------------------------------------------------------
  // The assessment page
  // ---------------------------------------------------------------------------

  const BASE_RATE: real := 5.0
  /** Share of the payment capacity shown as the estimated monthly payment. */
  const ESTIMATED_PAYMENT_SHARE: real := 0.9

  /** `s` with every underscore turned into a space. */
  function SpaceForUnderscore(s: string): (t: string)
    ensures |t| == |s|
    ensures forall i :: 0 <= i < |s| ==> t[i] == (if s[i] == '_' then ' ' else s[i])
  {
    if s == [] then []
    else [if s[0] == '_' then ' ' else s[0]] + SpaceForUnderscore(s[1..])
  }

  /** The message has no underscore left, and a second pass changes nothing. */
  lemma {:induction false} SpaceForUnderscoreClears(s: string)
    ensures '_' !in SpaceForUnderscore(s)
    ensures SpaceForUnderscore(SpaceForUnderscore(s)) == SpaceForUnderscore(s)
  {
    var t := SpaceForUnderscore(s);
    assert forall i :: 0 <= i < |t| ==> t[i] != '_';
    var u := SpaceForUnderscore(t);
    assert |u| == |t| && forall i :: 0 <= i < |t| ==> u[i] == t[i];
  }

  /** `int(x)` on a float: the integer part, rounding toward zero. */
  function TruncateTowardZero(x: real): (n: int)
    ensures x >= 0.0 ==> 0 <= n && n as real <= x < n as real + 1.0
    ensures x < 0.0 ==> n <= 0 && n as real - 1.0 < x <= n as real
  {
    if x >= 0.0 then x.Floor else -((-x).Floor)
  }

  /** The values the result page is filled with. */
  datatype AssessmentView = AssessmentView(
    customerId: string,
    riskScore: real,
    riskTier: string,
    riskCode: char,
    riskDescription: string,
    riskColor: string,
    decision: string,
    decisionColor: string,
    decisionMessage: string,
    maxLoan: real,
    monthlyCapacity: real,
    estimatedPayment: real,
    baseRate: real,
    adjustedRate: real,
    annualIncome: real,
    creditScore: int)

  /**
    Fills the result page for an applicant whose score, income and debt are
    already known.
  */
  function Assess(
    customerId: string, riskScore: real, annualIncome: real, monthlyDebt: real, creditScore: real): (v: AssessmentView)
    ensures var k := BandIndex(riskScore);
      && v.riskCode == CODES[k]
      && v.riskTier == LABELS[k]
      && v.riskDescription == DESCRIPTIONS[k]
      && v.decision == DECISIONS[k]
      && v.riskColor == COLORS[k]
      && v.adjustedRate == BASE_RATE + RATE_ADJUSTMENTS[k]
    ensures v.customerId == customerId && v.riskScore == riskScore && v.annualIncome == annualIncome
    ensures v.decisionColor == v.riskColor
    ensures v.decisionMessage == SpaceForUnderscore(v.decision)
    ensures |v.decisionMessage| == |v.decision| && '_' !in v.decisionMessage
    ensures forall i :: 0 <= i < |v.decision| ==>
              v.decisionMessage[i] == (if v.decision[i] == '_' then ' ' else v.decision[i])
    ensures var loan := RecommendLoanAmount(riskScore, annualIncome, monthlyDebt, creditScore);
      v.maxLoan == loan.recommendedMaxLoan && v.monthlyCapacity == loan.monthlyPaymentCapacity
    ensures v.baseRate == BASE_RATE && BASE_RATE <= v.adjustedRate <= BASE_RATE + 5.0
    ensures v.estimatedPayment == v.monthlyCapacity * ESTIMATED_PAYMENT_SHARE
    ensures 0.0 <= v.estimatedPayment <= v.monthlyCapacity
    ensures v.maxLoan >= 0.0
    ensures annualIncome >= 0.0 ==> v.maxLoan <= Service.AbsoluteCap(annualIncome)
    ensures creditScore >= 0.0 ==> 0 <= v.creditScore && v.creditScore as real <= creditScore < v.creditScore as real + 1.0
    ensures creditScore < 0.0 ==> v.creditScore <= 0 && v.creditScore as real - 1.0 < creditScore <= v.creditScore as real
  {
    var info := GetRiskTierInfo(riskScore);
    var loan := RecommendLoanAmount(riskScore, annualIncome, monthlyDebt, creditScore);
    TableAscending(BandIndex(riskScore), BandIndex(riskScore));
    SpaceForUnderscoreClears(info.decision);
    AssessmentView(
      customerId, riskScore, info.tier, info.code, info.description, info.color,
      info.decision, info.color, SpaceForUnderscore(info.decision),
      loan.recommendedMaxLoan, loan.monthlyPaymentCapacity,
      loan.monthlyPaymentCapacity * ESTIMATED_PAYMENT_SHARE,
      BASE_RATE, BASE_RATE + info.rateAdjustment, annualIncome, TruncateTowardZero(creditScore))
  }

  /**
    For a whole-number credit score the page shows what the prediction
    service returns: the same tier, decision, rates, amounts and score.
  */
  lemma AssessAgreesWithPredict(
    customerId: string, riskScore: real, annualIncome: real, monthlyDebt: real, creditScore: int)
    ensures var v := Assess(customerId, riskScore, annualIncome, monthlyDebt, creditScore as real);
      var p := Service.Predict(Service.Some(customerId), riskScore, annualIncome, monthlyDebt, creditScore);
      && v.customerId == p.customerId
      && v.riskTier == p.riskTier && v.riskCode == p.riskTierCode && v.decision == p.approvalDecision
      && v.maxLoan == p.maxApprovedAmount && v.monthlyCapacity == p.monthlyPaymentCapacity
      && v.estimatedPayment == p.estimatedMonthlyPayment
      && v.baseRate == p.baseInterestRate && v.adjustedRate == p.riskAdjustedRate
      && v.creditScore == p.creditScore
  {
    TierAgreesWithService(riskScore);
    RecommendAgreesWithService(riskScore, annualIncome, monthlyDebt, creditScore as real);
  }
}
