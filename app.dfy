/**
 * The page and the wizard together (src/pages/Index.tsx rendering
 * src/components/PlannerWizard.tsx and src/components/PlanResults.tsx).
 *
 * Only the controls of the screen on display can be used. The wizard is
 * rendered only in the wizard view, so entering that view mounts a fresh
 * wizard, and its completion callback is the page's `handleWizardComplete`.
 * The results view then looks the handed-over ids up in its label maps.
 */
module App {
  import Wizard
  import Page
  import Results

  datatype AppState = AppState(page: Page.PageState, wizard: Wizard.WizardState)

  const InitialApp := AppState(Page.InitialPage, Wizard.Initial)

  /** What the user can do: the home page's "start planning" buttons, anything inside the wizard, the wizard screen's "Back to Home", the results' "New Search". */
  datatype AppEvent =
    | ClickStartPlanning
    | WizardInput(e: Wizard.Event)
    | ClickBackToHome
    | ClickNewSearch

  /** One user event; a control that is not on the current screen does nothing. */
  function Step(a: AppState, ev: AppEvent): (r: AppState)
    ensures
      ((ev.ClickStartPlanning? && !Page.Render(a.page).HomeScreen?)
       || ((ev.WizardInput? || ev.ClickBackToHome?) && !Page.Render(a.page).WizardScreen?)
       || (ev.ClickNewSearch? && !Page.Render(a.page).ResultsScreen?))
      ==> r == a
    ensures r.page.currentView == Page.WizardView && a.page.currentView != Page.WizardView ==> r.wizard == Wizard.Initial
    ensures r.page.planData != a.page.planData ==>
      (ev.WizardInput? && r.page.planData == Wizard.Apply(a.wizard, ev.e).completed)
      || (ev.ClickBackToHome? && r.page.planData.None?)
    // and every control on screen runs its handler
    ensures ev.ClickStartPlanning? && Page.Render(a.page).HomeScreen? ==>
      r == AppState(Page.Handle(a.page, Page.StartPlanning), Wizard.Initial)
    ensures ev.ClickNewSearch? && Page.Render(a.page).ResultsScreen? ==>
      r == AppState(Page.Handle(a.page, Page.BackToWizard), Wizard.Initial)
    ensures ev.ClickBackToHome? && Page.Render(a.page).WizardScreen? ==>
      r == AppState(Page.Handle(a.page, Page.BackToHome), a.wizard)
    ensures ev.WizardInput? && Page.Render(a.page).WizardScreen? ==>
      var o := Wizard.Apply(a.wizard, ev.e);
      r == AppState(if o.completed.Some? then Page.Handle(a.page, Page.WizardComplete(o.completed.value)) else a.page, o.state)
  {
    var screen := Page.Render(a.page);
    match ev
    case ClickStartPlanning =>
      if screen.HomeScreen? then AppState(Page.Handle(a.page, Page.StartPlanning), Wizard.Initial) else a
    case WizardInput(e) =>
      if screen.WizardScreen? then
        var o := Wizard.Apply(a.wizard, e);
        if o.completed.Some? then AppState(Page.Handle(a.page, Page.WizardComplete(o.completed.value)), o.state)
        else AppState(a.page, o.state)
      else a
    case ClickBackToHome =>
      if screen.WizardScreen? then AppState(Page.Handle(a.page, Page.BackToHome), a.wizard) else a
    case ClickNewSearch =>
      if screen.ResultsScreen? then AppState(Page.Handle(a.page, Page.BackToWizard), Wizard.Initial) else a
  }

  function RunApp(a: AppState, evs: seq<AppEvent>): AppState
    decreases |evs|
  {
    if evs == [] then a else RunApp(Step(a, evs[0]), evs[1..])
  }

  /**
   * What every reachable state satisfies: the results view has plan data, the
   * plan data is a complete set of answers, and a wizard on screen is reachable.
   */
  predicate Good(a: AppState) {
    Page.Consistent(a.page)
    && (a.page.planData.Some? ==> Wizard.IsComplete(a.page.planData.value))
    && (a.page.currentView == Page.WizardView ==> Wizard.Reachable(a.wizard))
  }

  lemma StepKeepsGood(a: AppState, ev: AppEvent)
    requires Good(a)
    ensures Good(Step(a, ev))
  {
    Wizard.InitialIsReachable();
    if ev.WizardInput? && Page.Render(a.page).WizardScreen? {
      Wizard.ApplyKeepsReachable(a.wizard, ev.e);
    }
  }

  lemma {:induction false} RunKeepsGood(a: AppState, evs: seq<AppEvent>)
    requires Good(a)
    ensures Good(RunApp(a, evs))
    decreases |evs|
  {
    if evs != [] {
      StepKeepsGood(a, evs[0]);
      RunKeepsGood(Step(a, evs[0]), evs[1..]);
    }
  }

  /** A completion takes the page straight to the results for exactly the answers handed over, so the wizard is gone and cannot complete again. */
  lemma CompletionShowsResults(a: AppState, e: Wizard.Event)
    requires Page.Render(a.page).WizardScreen?
    requires Wizard.Apply(a.wizard, e).completed.Some?
    ensures Page.Render(Step(a, WizardInput(e)).page) == Page.ResultsScreen(a.wizard.data)
  {
  }

  /** Start planning, fill in the three steps and press Next each time: the results for those answers are on screen. */
  lemma CompleteJourney()
    ensures var evs := [ClickStartPlanning, WizardInput(Wizard.TypeLocation("x")), WizardInput(Wizard.ClickNext),
                        WizardInput(Wizard.ClickOccasion("date")), WizardInput(Wizard.ClickNext),
                        WizardInput(Wizard.ClickDestination("mg-road")), WizardInput(Wizard.ClickNext)];
      Page.Render(RunApp(InitialApp, evs).page) == Page.ResultsScreen(Wizard.WizardData("x", "date", "mg-road"))
  {
    // the wizard states after each input, and the page the journey stays on until the end
    var d := Wizard.WizardData("x", "date", "mg-road");
    var onWizard := Page.Handle(Page.InitialPage, Page.StartPlanning);
    assert Wizard.Trim("x") != "" by { Wizard.TrimNonEmptyIff("x"); assert !Wizard.IsSpace("x"[0]); }
    var a1 := AppState(onWizard, Wizard.Initial);
    var a2 := AppState(onWizard, Wizard.WizardState(1, Wizard.WizardData("x", "", "")));
    var a3 := AppState(onWizard, Wizard.WizardState(2, Wizard.WizardData("x", "", "")));
    var a4 := AppState(onWizard, Wizard.WizardState(2, Wizard.WizardData("x", "date", "")));
    var a5 := AppState(onWizard, Wizard.WizardState(3, Wizard.WizardData("x", "date", "")));
    var a6 := AppState(onWizard, Wizard.WizardState(3, d));
    assert Step(InitialApp, ClickStartPlanning) == a1;
    assert Step(a1, WizardInput(Wizard.TypeLocation("x"))) == a2;
    assert Step(a2, WizardInput(Wizard.ClickNext)) == a3;
    assert Step(a3, WizardInput(Wizard.ClickOccasion("date"))) == a4;
    assert Step(a4, WizardInput(Wizard.ClickNext)) == a5;
    assert Step(a5, WizardInput(Wizard.ClickDestination("mg-road"))) == a6;
    assert Page.Render(Step(a6, WizardInput(Wizard.ClickNext)).page) == Page.ResultsScreen(d);
  }

  /**
   * Whatever the user does, a results screen shows answers with a non-blank
   * location, and both of its label lookups find a label.
   */
  lemma ResultsAlwaysLabelled(evs: seq<AppEvent>)
    ensures var screen := Page.Render(RunApp(InitialApp, evs).page);
      screen.ResultsScreen? ==>
        Wizard.Trim(screen.searchData.startLocation) != ""
        && Results.LabelOf(Results.OccasionLabels, screen.searchData.occasion) != ""
        && Results.LabelOf(Results.DestinationLabels, screen.searchData.destination) != ""
  {
    RunKeepsGood(InitialApp, evs);
    Results.LabelsMatchWizardIds();
  }
}
