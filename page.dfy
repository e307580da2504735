/**
 * The page-level view machine (src/pages/Index.tsx).
 *
 * The page shows one of three views and holds the answers of the last
 * completed wizard in `planData`. Four handlers move between the views; the
 * render code picks the screen from the pair (view, planData).
 */
module Page {
  import opened Wrappers
  import opened Wizard

  datatype View = Home | WizardView | ResultsView

  /** The page's two state slots: `currentView` and `planData` (`None` is `null`). */
  datatype PageState = PageState(currentView: View, planData: Option<WizardData>)

  const InitialPage := PageState(Home, None)

  /** The four handlers of the page. */
  datatype Transition =
    | StartPlanning
    | WizardComplete(data: WizardData)
    | BackToWizard
    | BackToHome

  function Handle(p: PageState, t: Transition): (r: PageState)
    ensures t.StartPlanning? || t.BackToWizard? ==> r == PageState(WizardView, p.planData)
    ensures t.WizardComplete? ==> r == PageState(ResultsView, Some(t.data))
    ensures t.BackToHome? ==> r == PageState(Home, None)
  {
    match t
    case StartPlanning => p.(currentView := WizardView)
    case WizardComplete(d) => PageState(ResultsView, Some(d))
    case BackToWizard => p.(currentView := WizardView)
    case BackToHome => PageState(Home, None)
  }

  /** What the page renders. */
  datatype Screen = HomeScreen | WizardScreen | ResultsScreen(searchData: WizardData)

  /** The render code: the wizard view first, then results when there is plan data, the home page otherwise. */
  function Render(p: PageState): (r: Screen)
    ensures r == WizardScreen <==> p.currentView == WizardView
    ensures r.ResultsScreen? <==> p.currentView == ResultsView && p.planData.Some?
    ensures r.ResultsScreen? ==> r.searchData == p.planData.value
    ensures r.HomeScreen? <==> p.currentView.Home? || (p.currentView.ResultsView? && p.planData.None?)
  {
    if p.currentView == WizardView then WizardScreen
    else if p.currentView == ResultsView && p.planData.Some? then ResultsScreen(p.planData.value)
    else HomeScreen
  }

  /** The results view always has plan data to show. */
  predicate Consistent(p: PageState) {
    p.currentView == ResultsView ==> p.planData.Some?
  }

  lemma HandleKeepsConsistent(p: PageState, t: Transition)
    requires Consistent(p)
    ensures Consistent(Handle(p, t))
  {
  }

  function RunPage(p: PageState, ts: seq<Transition>): PageState
    decreases |ts|
  {
    if ts == [] then p else RunPage(Handle(p, ts[0]), ts[1..])
  }

  /** From the initial page, any sequence of the four handlers leaves the results view with plan data. */
  lemma {:induction false} RunKeepsConsistent(p: PageState, ts: seq<Transition>)
    requires Consistent(p)
    ensures Consistent(RunPage(p, ts))
    decreases |ts|
  {
    if ts != [] {
      HandleKeepsConsistent(p, ts[0]);
      RunKeepsConsistent(Handle(p, ts[0]), ts[1..]);
    }
  }

  /** Hence the results view never falls through to the home page. */
  lemma ReachableResultsRender(ts: seq<Transition>)
    ensures var p := RunPage(InitialPage, ts);
      p.currentView == ResultsView ==> p.planData.Some? && Render(p) == ResultsScreen(p.planData.value)
  {
    RunKeepsConsistent(InitialPage, ts);
  }

  /** After a completion the page shows exactly the answers handed over, until it goes home. */
  lemma CompletionShowsResults(p: PageState, d: WizardData)
    ensures Render(Handle(p, WizardComplete(d))) == ResultsScreen(d)
  {
  }

  class IndexPage {
    var currentView: View
    var planData: Option<WizardData>

    function State(): PageState
      reads this
    {
      PageState(currentView, planData)
    }

    constructor ()
      ensures State() == InitialPage
    {
      currentView := Home;
      planData := None;
    }

    method HandleStartPlanning()
      modifies this
      ensures State() == Handle(old(State()), StartPlanning)
    {
      currentView := WizardView;
    }

    method HandleWizardComplete(data: WizardData)
      modifies this
      ensures State() == Handle(old(State()), WizardComplete(data))
    {
      planData := Some(data);
      currentView := ResultsView;
    }

    method HandleBackToWizard()
      modifies this
      ensures State() == Handle(old(State()), BackToWizard)
    {
      currentView := WizardView;
    }

    method HandleBackToHome()
      modifies this
      ensures State() == Handle(old(State()), BackToHome)
    {
      currentView := Home;
      planData := None;
    }
  }
}
