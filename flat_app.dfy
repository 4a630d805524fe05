/**
 * The flat application: one form submit that asks the plan service for
 * recommendations and shows either the response or an error banner. Its
 * records differ from the nested application's: plans sit beside the
 * vehicles instead of inside them.
 *
 * The handler is atomic: what the awaited service call settles to is passed
 * in as `outcome`.
 */
module FlatApp {
  import opened Wrappers
  import Types
  import GeminiService
  import App

  /** The flat application's form sends the same five fields as the nested one. */
  type UserInput = Types.UserInput

  /** What the service threw, as the nested application models it. */
  type Thrown = GeminiService.Thrown

  datatype SuggestedModel = SuggestedModel(
    name: string,
    estimatedMsrp: int,
    reasoning: string,
    imageUrl: string)

  /** `planType` arrives unchecked from parsed JSON, so any string may appear. */
  datatype PaymentPlan = PaymentPlan(
    planType: string,
    vehicleName: string,
    monthlyPayment: int,
    term: int,
    apr: real,
    totalCost: int,
    pros: seq<string>,
    cons: seq<string>)

  datatype ApiResponse = ApiResponse(
    suggestedModels: seq<SuggestedModel>,
    paymentPlans: seq<PaymentPlan>,
    financialTips: seq<string>)

  /** What the page shows once a submit has settled. */
  datatype View = View(response: Option<ApiResponse>, error: Option<string>)

  /**
   * The settled view of a submit: the response on success, the error text
   * on failure, never both and never neither.
   */
  function Settled(outcome: Result<ApiResponse, Thrown>): (v: View)
    ensures v.response.Some? != v.error.Some?
    ensures v.response.Some? <==> outcome.Success?
    ensures outcome.Success? ==> v.response.value == outcome.value
    ensures outcome.Failure? ==> v.error.value == App.ErrorText(outcome.error, App.SUBMIT_FALLBACK)
  {
    match outcome
    case Success(r) => View(Some(r), None)
    case Failure(e) => View(None, Some(App.ErrorText(e, App.SUBMIT_FALLBACK)))
  }

  /**
   * The error banner (`error &&`) and the results (`apiResponse &&`) after a
   * submit: the results show exactly on success; the banner shows exactly on
   * a failure whose text is not empty, which a non-`Error` never is.
   */
  lemma SettledRendering(outcome: Result<ApiResponse, Thrown>)
    ensures var v := Settled(outcome);
      (v.response.Some? <==> outcome.Success?)
      && ((v.error.Some? && v.error.value != "") <==>
            (outcome.Failure? && (outcome.error.NonErrorValue? || outcome.error.message != "")))
  {
    var v := Settled(outcome);
    if outcome.Failure? && outcome.error.NonErrorValue? {
      assert v.error.value == App.SUBMIT_FALLBACK;
    }
  }

  class FlatAppState {
    var isLoading: bool
    var apiResponse: Option<ApiResponse>
    var error: Option<string>

    /** The error banner is rendered: `error &&` hides it for null and for the empty string. */
    predicate ShowsErrorBanner()
      reads this
    {
      error.Some? && error.value != ""
    }

    /** The results are rendered. */
    predicate ShowsResults()
      reads this
    {
      apiResponse.Some?
    }

    constructor()
      ensures !isLoading && apiResponse == None && error == None
    {
      isLoading := false;
      apiResponse := None;
      error := None;
    }

    /**
     * `handleFormSubmit`: set loading and clear the response and the error,
     * then record the outcome and end loading. The previous state leaves no
     * trace.
     */
    method HandleFormSubmit(data: UserInput, outcome: Result<ApiResponse, Thrown>)
      modifies this
      ensures !isLoading
      ensures View(apiResponse, error) == Settled(outcome)
      ensures apiResponse.Some? != error.Some?
      ensures ShowsResults() <==> outcome.Success?
      ensures ShowsErrorBanner() <==>
        outcome.Failure? && (outcome.error.NonErrorValue? || outcome.error.message != "")
    {
      isLoading := true;
      error := None;
      apiResponse := None;
      match outcome {
        case Success(response) =>
          apiResponse := Some(response);
        case Failure(e) =>
          error := Some(App.ErrorText(e, App.SUBMIT_FALLBACK));
      }
      isLoading := false;
    }
  }
}
