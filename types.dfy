/**
 * The records exchanged between the form, the plan service and the results
 * view of the nested-plan application, and the term options of its selector.
 * Money amounts are whole dollars (`int`); the APR is a `real`.
 */
module Types {

  /** The four credit-score bands offered by the form. */
  datatype CreditScoreRange = Poor | Fair | Good | Excellent

  /** The enum's string value, which is what a prompt or the JSON carries. */
  function CreditScoreLabel(c: CreditScoreRange): string {
    match c
    case Poor => "Poor (<630)"
    case Fair => "Fair (630-689)"
    case Good => "Good (690-719)"
    case Excellent => "Excellent (720+)"
  }

  /** The five lifestyles offered by the form. */
  datatype Lifestyle = Commuter | Family | Offroad | EcoFriendly | Performance

  function LifestyleLabel(l: Lifestyle): string {
    match l
    case Commuter => "Daily Commuter"
    case Family => "Family Adventures"
    case Offroad => "Off-road & Hauling"
    case EcoFriendly => "Eco-Conscious"
    case Performance => "Performance Enthusiast"
  }

  /** A submitted profile. The form's slider ranges are not enforced anywhere. */
  datatype UserInput = UserInput(
    monthlyIncome: int,
    creditScore: CreditScoreRange,
    downPayment: int,
    term: int,
    lifestyle: Lifestyle)

  datatype CostBreakdownItem = CostBreakdownItem(name: string, value: int)

  /**
   * One financing option. `planType` is declared as 'Finance' | 'Lease' but
   * arrives unchecked from parsed JSON, so any string may appear.
   */
  datatype PaymentPlan = PaymentPlan(
    planType: string,
    monthlyPayment: int,
    term: int,
    apr: real,
    costBreakdown: seq<CostBreakdownItem>,
    pros: seq<string>,
    cons: seq<string>)

  datatype SuggestedModel = SuggestedModel(
    name: string,
    estimatedMsrp: int,
    reasoning: string,
    paymentPlans: seq<PaymentPlan>)

  datatype ApiResponse = ApiResponse(
    suggestedModels: seq<SuggestedModel>,
    financialTips: seq<string>)

  const FINANCE: string := "Finance"
  const LEASE: string := "Lease"

  /** The loan/lease terms, in months, the term selector offers. */
  const TERM_OPTIONS: seq<int> := [36, 48, 60, 72]
}
