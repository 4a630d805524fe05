/**
 * The top-level state of the nested-plan application: a submit that asks
 * the plan service for recommendations, and a term change that asks it to
 * recalculate the selected vehicle's plans and splices them into the
 * response by vehicle name.
 *
 * Each handler is atomic: what the awaited service call settles to is passed
 * in as `outcome`.
 */
module App {
  import opened Wrappers
  import opened Types
  import opened GeminiService

  const SUBMIT_FALLBACK: string := "An unknown error occurred."
  const RECALC_FALLBACK: string := "An unknown error occurred " + "during recalculation."

  /** What a catch block shows: an `Error`'s message, otherwise its fallback text. */
  function ErrorText(e: Thrown, fallback: string): (text: string)
    ensures e.ErrorValue? ==> text == e.message
    ensures e.NonErrorValue? ==> text == fallback
  {
    match e
    case ErrorValue(m) => m
    case NonErrorValue => fallback
  }

  /** The names of the listed vehicles, in order. */
  function Names(models: seq<SuggestedModel>): seq<string> {
    seq(|models|, i requires 0 <= i < |models| => models[i].name)
  }

  /**
   * The `map` over the suggested models: every model named `name` becomes
   * `replacement`, every other model stays as it is.
   */
  function ReplaceByName(models: seq<SuggestedModel>, name: string, replacement: SuggestedModel): (r: seq<SuggestedModel>)
    ensures |r| == |models|
    ensures forall i :: 0 <= i < |models| ==> r[i] == (if models[i].name == name then replacement else models[i])
  {
    if models == [] then []
    else [if models[0].name == name then replacement else models[0]] + ReplaceByName(models[1..], name, replacement)
  }

  /** A replacement that carries the compared name keeps the list of names. */
  lemma ReplaceByNameKeepsNames(models: seq<SuggestedModel>, name: string, replacement: SuggestedModel)
    requires replacement.name == name
    ensures Names(ReplaceByName(models, name, replacement)) == Names(models)
  {
  }

  /** When no model carries the name, the list is unchanged. */
  lemma ReplaceByNameAbsent(models: seq<SuggestedModel>, name: string, replacement: SuggestedModel)
    requires name !in Names(models)
    ensures ReplaceByName(models, name, replacement) == models
  {
    var r := ReplaceByName(models, name, replacement);
    forall i | 0 <= i < |models| ensures r[i] == models[i] {
      assert Names(models)[i] == models[i].name;
    }
  }

  /** Splicing the same replacement again changes nothing. */
  lemma ReplaceByNameIdempotent(models: seq<SuggestedModel>, name: string, replacement: SuggestedModel)
    requires replacement.name == name
    ensures var r := ReplaceByName(models, name, replacement);
      ReplaceByName(r, name, replacement) == r
  {
  }

  /**
   * The selected vehicle, wherever it sits in the list, is replaced there by
   * itself with the new plans: name, MSRP and reasoning are kept.
   */
  lemma ReplaceSelected(models: seq<SuggestedModel>, i: int, plans: seq<PaymentPlan>)
    requires 0 <= i < |models|
    ensures var sel := models[i];
      var r := ReplaceByName(models, sel.name, sel.(paymentPlans := plans));
      r[i] == sel.(paymentPlans := plans) && r[i].name == sel.name
      && r[i].estimatedMsrp == sel.estimatedMsrp && r[i].reasoning == sel.reasoning
      && sel.(paymentPlans := plans) in r
  {
  }

  /** A failure of the plan service always reaches the banner as the service's own non-empty message. */
  lemma SubmitShowsServiceMessage(
    u: UserInput,
    generate: string -> Result<string, Thrown>,
    parse: string -> Result<ApiResponse, Thrown>)
    ensures var r := GenerateFinancePlan(u, generate, parse);
      r.Failure? ==>
        ErrorText(r.error, SUBMIT_FALLBACK) == r.error.message
        && r.error.message != "" && r.error.message != SUBMIT_FALLBACK
  {
    var r := GenerateFinancePlan(u, generate, parse);
    if r.Failure? {
      var cause :| r.error.message == PlanFailure(cause);
      if cause.ErrorValue? {
        assert r.error.message == PLAN_ERROR_PREFIX + cause.message;
        assert r.error.message[0] == PLAN_ERROR_PREFIX[0] == 'F';
      } else {
        assert |r.error.message| != |SUBMIT_FALLBACK|;
      }
    }
  }

  /** See `SubmitShowsServiceMessage`: the same holds for the recalculation. */
  lemma TermChangeShowsServiceMessage(
    vehicle: SuggestedModel,
    u: UserInput,
    generate: string -> Result<string, Thrown>,
    parse: string -> Result<seq<PaymentPlan>, Thrown>)
    ensures var r := RecalculatePlans(vehicle, u, generate, parse);
      r.Failure? ==>
        ErrorText(r.error, RECALC_FALLBACK) == r.error.message
        && r.error.message != "" && r.error.message != RECALC_FALLBACK
  {
    var r := RecalculatePlans(vehicle, u, generate, parse);
    if r.Failure? {
      var cause :| r.error.message == RecalcFailure(cause);
      if cause.ErrorValue? {
        assert r.error.message == RECALC_ERROR_PREFIX + cause.message;
        assert r.error.message[0] == RECALC_ERROR_PREFIX[0] == 'F';
      } else {
        assert |r.error.message| != |RECALC_FALLBACK|;
      }
    }
  }

  class AppState {
    var isLoading: bool
    var isRecalculating: bool
    var apiResponse: Option<ApiResponse>
    var selectedVehicle: Option<SuggestedModel>
    var currentUserInput: Option<UserInput>
    var term: int
    var error: Option<string>

    /** The results view is rendered. */
    predicate ShowsResults()
      reads this
    {
      apiResponse.Some? && selectedVehicle.Some?
    }

    /** The error banner is rendered: `error &&` hides it for null and for the empty string. */
    predicate ShowsErrorBanner()
      reads this
    {
      error.Some? && error.value != ""
    }

    /** A selection is always one of the vehicles of the current response. */
    predicate SelectionListed()
      reads this
    {
      selectedVehicle.Some? ==> apiResponse.Some? && selectedVehicle.value in apiResponse.value.suggestedModels
    }

    constructor()
      ensures !isLoading && !isRecalculating && apiResponse == None && selectedVehicle == None
      ensures currentUserInput == None && term == 60 && error == None
      ensures SelectionListed()
    {
      isLoading := false;
      isRecalculating := false;
      apiResponse := None;
      selectedVehicle := None;
      currentUserInput := None;
      term := 60;
      error := None;
    }

    /**
     * `handleFormSubmit`: reset the response, the selection and the error,
     * store the input and its term, then record the outcome; the first
     * suggested vehicle, if any, becomes the selection.
     */
    method HandleFormSubmit(data: UserInput, outcome: Result<ApiResponse, Thrown>)
      modifies this
      ensures currentUserInput == Some(data) && term == data.term
      ensures !isLoading && isRecalculating == old(isRecalculating)
      ensures outcome.Success? ==>
        apiResponse == Some(outcome.value) && error == None
        && selectedVehicle == (if |outcome.value.suggestedModels| > 0 then Some(outcome.value.suggestedModels[0]) else None)
      ensures outcome.Success? ==> (ShowsResults() <==> |outcome.value.suggestedModels| > 0)
      ensures outcome.Failure? ==>
        apiResponse == None && selectedVehicle == None && error == Some(ErrorText(outcome.error, SUBMIT_FALLBACK))
      ensures ShowsErrorBanner() <==>
        outcome.Failure? && (outcome.error.NonErrorValue? || outcome.error.message != "")
      ensures apiResponse.Some? != error.Some?
      ensures SelectionListed()
    {
      isLoading := true;
      error := None;
      apiResponse := None;
      selectedVehicle := None;
      currentUserInput := Some(data);
      term := data.term;
      match outcome {
        case Success(response) =>
          apiResponse := Some(response);
          if |response.suggestedModels| > 0 {
            selectedVehicle := Some(response.suggestedModels[0]);
          }
        case Failure(e) =>
          error := Some(ErrorText(e, SUBMIT_FALLBACK));
      }
      isLoading := false;
    }

    /** `onVehicleSelect`: the results view selects one of its vehicles. */
    method SelectVehicle(vehicle: SuggestedModel)
      modifies this
      ensures selectedVehicle == Some(vehicle)
      ensures apiResponse == old(apiResponse) && error == old(error) && term == old(term)
      ensures currentUserInput == old(currentUserInput)
      ensures isLoading == old(isLoading) && isRecalculating == old(isRecalculating)
      ensures apiResponse.Some? && vehicle in apiResponse.value.suggestedModels ==> SelectionListed()
    {
      selectedVehicle := Some(vehicle);
    }

    /**
     * `handleTermChange`: without an input, a selection and a response nothing
     * happens. Otherwise the term and the stored input take the new term and
     * the error clears; on success every model named like the selection is
     * replaced by the selection with the new plans, which also becomes the
     * new selection; on failure only the error is set.
     */
    method HandleTermChange(newTerm: int, outcome: Result<seq<PaymentPlan>, Thrown>)
      modifies this
      ensures old(currentUserInput.None? || selectedVehicle.None? || apiResponse.None?) ==>
        term == old(term) && currentUserInput == old(currentUserInput) && error == old(error)
        && apiResponse == old(apiResponse) && selectedVehicle == old(selectedVehicle)
        && isRecalculating == old(isRecalculating)
      ensures old(currentUserInput.Some? && selectedVehicle.Some? && apiResponse.Some?) ==>
        term == newTerm && currentUserInput == Some(old(currentUserInput.value).(term := newTerm))
        && !isRecalculating
      ensures old(currentUserInput.Some? && selectedVehicle.Some? && apiResponse.Some?) && outcome.Success? ==>
        var sel := old(selectedVehicle.value).(paymentPlans := outcome.value);
        error == None && selectedVehicle == Some(sel)
        && apiResponse == Some(old(apiResponse.value).(
             suggestedModels := ReplaceByName(old(apiResponse.value.suggestedModels), sel.name, sel)))
        && apiResponse.value.financialTips == old(apiResponse.value.financialTips)
      ensures old(currentUserInput.Some? && selectedVehicle.Some? && apiResponse.Some?) && outcome.Failure? ==>
        error == Some(ErrorText(outcome.error, RECALC_FALLBACK))
        && apiResponse == old(apiResponse) && selectedVehicle == old(selectedVehicle)
      ensures old(currentUserInput.Some? && selectedVehicle.Some? && apiResponse.Some?) ==>
        (ShowsErrorBanner() <==> outcome.Failure? && (outcome.error.NonErrorValue? || outcome.error.message != ""))
      ensures isLoading == old(isLoading)
      ensures old(SelectionListed()) ==> SelectionListed()
    {
      if currentUserInput.None? || selectedVehicle.None? || apiResponse.None? {
        return;
      }
      term := newTerm;
      isRecalculating := true;
      error := None;
      var updatedUserInput := currentUserInput.value.(term := newTerm);
      currentUserInput := Some(updatedUserInput);
      match outcome {
        case Success(newPlans) =>
          var vehicle := selectedVehicle.value;
          var newSelectedVehicleState := vehicle.(paymentPlans := newPlans);
          var models := apiResponse.value.suggestedModels;
          var newSuggestedModels := ReplaceByName(models, vehicle.name, newSelectedVehicleState);
          if vehicle in models {
            var i :| 0 <= i < |models| && models[i] == vehicle;
            ReplaceSelected(models, i, newPlans);
          }
          apiResponse := Some(apiResponse.value.(suggestedModels := newSuggestedModels));
          selectedVehicle := Some(newSelectedVehicleState);
        case Failure(e) =>
          error := Some(ErrorText(e, RECALC_FALLBACK));
      }
      isRecalculating := false;
    }
  }
}
