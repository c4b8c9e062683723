/**
 * The application shell: which of the four screens is current, and the
 * request and plan it holds, updated by the shell's handlers.
 */
module App {
  import opened Wrappers
  import opened FormData
  import opened PlanService

  datatype View = HomeView | FormView | LoadingView | PlanView

  /** How the awaited `generateTravelPlan` call settled. */
  datatype PlanOutcome = Resolved(plan: GeneratedTravelPlan) | Rejected

  /** What the main area shows. `Blank` is the plan view without a plan. */
  datatype Screen = HomeScreen | FormScreen | LoadingScreen | PlanScreen(plan: GeneratedTravelPlan) | Blank

  /** The shell's three state cells. */
  class AppState {
    var currentView: View
    var travelData: Option<TravelFormData>
    var generatedPlan: Option<GeneratedTravelPlan>

    /** The home view holds nothing, loading always has a request, the plan view always a plan. */
    ghost predicate Valid()
      reads this
    {
      && (currentView == HomeView ==> travelData.None? && generatedPlan.None?)
      && (currentView == LoadingView ==> travelData.Some?)
      && (currentView == PlanView ==> generatedPlan.Some?)
    }

    constructor ()
      ensures Valid()
      ensures currentView == HomeView && travelData == None && generatedPlan == None
      ensures !ShowBackButton()
    {
      currentView := HomeView;
      travelData := None;
      generatedPlan := None;
    }

    method HandleStartPlanning()
      requires Valid()
      modifies this
      ensures Valid()
      ensures currentView == FormView && ShowBackButton()
      ensures travelData == old(travelData) && generatedPlan == old(generatedPlan)
    {
      currentView := FormView;
    }

    /** The part of `handleFormSubmit` before the await: record the request, show loading. */
    method BeginFormSubmit(data: TravelFormData)
      requires Valid()
      modifies this
      ensures Valid()
      ensures travelData == Some(data) && currentView == LoadingView
      ensures generatedPlan == old(generatedPlan)
      ensures ShowBackButton()
    {
      travelData := Some(data);
      currentView := LoadingView;
    }

    /** The part after the await: store the plan and show it, or go back to the form. */
    method FinishFormSubmit(outcome: PlanOutcome)
      requires Valid()
      modifies this
      ensures Valid()
      ensures travelData == old(travelData)
      ensures outcome.Resolved? ==> generatedPlan == Some(outcome.plan) && currentView == PlanView
      ensures outcome.Rejected? ==> generatedPlan == old(generatedPlan) && currentView == FormView
      ensures ShowBackButton()
    {
      match outcome
      case Resolved(plan) =>
        generatedPlan := Some(plan);
        currentView := PlanView;
      case Rejected =>
        currentView := FormView;
    }

    /**
     * `handleFormSubmit` run to the end against the plan service. The service
     * never fails, so the submission always ends on the plan view.
     */
    method HandleFormSubmit(data: TravelFormData, service: OpenAIService, duration: int,
                            remote: RemoteOutcome, parse: JsonParser)
      requires Valid()
      modifies this
      ensures Valid()
      ensures currentView == PlanView && travelData == Some(data) && ShowBackButton()
      ensures generatedPlan == Some(GenerateTravelPlan(service, data, duration, remote, parse))
      ensures generatedPlan.value.destination == data.destination && generatedPlan.value.budget == data.budget
    {
      BeginFormSubmit(data);
      var plan := GenerateTravelPlan(service, data, duration, remote, parse);
      FinishFormSubmit(Resolved(plan));
    }

    method HandleBackToHome()
      requires Valid()
      modifies this
      ensures Valid()
      ensures currentView == HomeView && travelData == None && generatedPlan == None
      ensures !ShowBackButton()
    {
      currentView := HomeView;
      travelData := None;
      generatedPlan := None;
    }

    /** The header's back button is shown everywhere but home. */
    function ShowBackButton(): bool
      reads this
    {
      currentView != HomeView
    }

    /** The screen each view renders; the plan screen needs a stored plan. */
    function CurrentScreen(): (s: Screen)
      reads this
      ensures s.PlanScreen? <==> currentView == PlanView && generatedPlan.Some?
      ensures s.PlanScreen? ==> s.plan == generatedPlan.value
      ensures s == HomeScreen <==> currentView == HomeView
      ensures s == FormScreen <==> currentView == FormView
      ensures s == LoadingScreen <==> currentView == LoadingView
      ensures Valid() ==> s != Blank
    {
      match currentView
      case HomeView => HomeScreen
      case FormView => FormScreen
      case LoadingView => LoadingScreen
      case PlanView => if generatedPlan.Some? then PlanScreen(generatedPlan.value) else Blank
    }
  }

  /**
   * Going back home while the plan is loading, and the plan arriving
   * afterwards: the shell switches to the plan view with the plan, and the
   * request stays cleared.
   */
  method LateResolutionAfterBack(data: TravelFormData, plan: GeneratedTravelPlan)
    returns (view: View, request: Option<TravelFormData>, shown: Option<GeneratedTravelPlan>)
    ensures view == PlanView && request == None && shown == Some(plan)
  {
    var app := new AppState();
    app.BeginFormSubmit(data);
    app.HandleBackToHome();
    app.FinishFormSubmit(Resolved(plan));
    view, request, shown := app.currentView, app.travelData, app.generatedPlan;
  }
}
