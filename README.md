# daytrip-discover: the planner's state machines, in Dafny

This project models the sequential logic underneath the daytrip-discover front
end, a venue-discovery page for Bangalore:

- **Wizard** (`wizard.dfy`): the three-step planner. It holds a step counter
  (1..3) and the answers (start location, occasion, destination). Next and Back
  move the counter. Next is enabled only while the current step's answer is
  valid; at step 3 it hands the answers to the completion callback. The
  location check uses JavaScript's `trim`, modelled with its exact set of white
  space and line-terminator characters.
- **Page** (`page.dfy`): the page's view machine. It has the views home,
  wizard and results, the `planData` slot, four handlers, and the choice of
  what to render.
- **Filters** (`filters.dfy`): the filter panel's state. It covers the
  membership toggles on the cuisine and feature lists, "clear all filters",
  and the active-filter count shown on the badge.
- **Results** (`results.dfy`): the results view. It covers the six mock
  venues, the estimated cost of the first three venues, the savings figure,
  the reset button and the heading's label maps.
- **App** (`app.dfy`): the page and the wizard together. Entering the wizard
  view mounts a fresh wizard; a completion shows the results. In every
  reachable state, a results screen shows answers whose labels exist.

Each component whose source keeps mutable state is a class with the source's
state fields. Its handlers are methods whose postconditions tie the new state
to a pure transition function. The lemmas state the properties about those
functions and about sequences of user events.

Three behaviours of the code that the model states explicitly:

- Step 2 is valid when `occasion` is non-empty (`isStepValid`). Membership in
  the occasion list comes from the buttons, not from the check; `Wizard.Apply`
  models this.
- The wizard itself fires `onComplete` on every Next at step 3. It fires at
  most once per visit only because the page then leaves the wizard view and
  unmounts it (`App.CompletionShowsResults`).
- There is no filtering or sorting anywhere. `handleFiltersChange` only logs.
  The panel never calls `onFiltersChange`. `sortBy` is stored but never used.
  The venue list is only ever set to the full mock list, so it always holds six
  venues and the empty state with its "Reset Filters" button never shows.

## Model

| member | source | states |
|---|---|---|
| Wizard.Trim | src/components/PlannerWizard.tsx:53 | `trim()` returns the slice of the input left after removing a run of white space at each end, and that slice neither starts nor ends with white space |
| Wizard.TrimNonEmptyIff | src/components/PlannerWizard.tsx:53 | `s.trim() !== ''` holds exactly when `s` has a character outside JavaScript's white-space and line-terminator set |
| Wizard.InitialIsReachable | src/components/PlannerWizard.tsx:35-40 | the wizard starts at step 1 with all three answers empty, satisfies the wizard invariant, and Next starts out disabled |
| Wizard.IsStepValid | src/components/PlannerWizard.tsx:51-57 | only steps 1..3 can be valid, and a valid step 1 has a location that is not all white space |
| Wizard.StepOneValidIff | src/components/PlannerWizard.tsx:51-57 | on step 1, Next is enabled exactly when the location has a non-white-space character |
| Wizard.Next | src/components/PlannerWizard.tsx:42-45 | below step 3, Next advances by exactly one and fires nothing; at step 3 it keeps the step and fires `onComplete` with exactly the current answers; the answers never change |
| Wizard.Back | src/components/PlannerWizard.tsx:47-49 | Back decrements a step above 1 and is a no-op at step 1; the answers never change |
| Wizard.WithStartLocation | src/components/PlannerWizard.tsx:108 | typing sets only `startLocation`; the step and the other answers are unchanged |
| Wizard.WithOccasion | src/components/PlannerWizard.tsx:124 | choosing an occasion sets only `occasion` to the chosen id; the step and the other answers are unchanged |
| Wizard.WithDestination | src/components/PlannerWizard.tsx:149 | choosing a destination sets only `destination` to the chosen id; the step and the other answers are unchanged |
| Wizard.Apply | src/components/PlannerWizard.tsx:100-188 | in both directions: typing on step 1 sets the location, an offered occasion on step 2 and an offered destination on step 3 set their answer, Next runs `handleNext` exactly when the step is valid, Back runs `handleBack` above step 1; and nothing else changes a field, moves the step (always by one) or completes, a completion carrying the current answers |
| Wizard.ApplyKeepsReachable | src/components/PlannerWizard.tsx:100-188 | with fields editable only on their own step and Next gated by validity, one user event keeps the step in 1..3, keeps a valid location once past step 1 and an occasion on step 3, and keeps the chosen ids in the fixed lists; a completion happens only at step 3, carries the current answers, and those answers are complete |
| Wizard.CompleteWalk | src/components/PlannerWizard.tsx:42-45 | from the mounted wizard, typing a location, choosing "date" and "mg-road" and pressing Next after each step hands exactly those answers to the completion callback, once |
| Wizard.RunKeepsReachable | src/components/PlannerWizard.tsx:42-57 | after any sequence of user events the invariant still holds, and every answer set handed to `onComplete` has a non-blank location, an occasion id and a destination id from the fixed lists |
| Wizard.NavigateStaysInRange | src/components/PlannerWizard.tsx:42-49 | even without the button gating, no sequence of Next and Back takes the step out of 1..3 or changes the answers |
| Wizard.PlannerWizard.constructor | src/components/PlannerWizard.tsx:35-40 | a mounted wizard is at step 1 with empty answers |
| Wizard.PlannerWizard.HandleNext | src/components/PlannerWizard.tsx:42-45 | `handleNext` updates the fields as `Wizard.Next` says and returns the `onComplete` argument when the callback fires |
| Wizard.PlannerWizard.HandleBack | src/components/PlannerWizard.tsx:47-49 | `handleBack` updates the fields as `Wizard.Back` says |
| Wizard.PlannerWizard.SetStartLocation | src/components/PlannerWizard.tsx:108 | the input's `onChange` replaces only `startLocation` |
| Wizard.PlannerWizard.SelectOccasion | src/components/PlannerWizard.tsx:124 | an occasion button replaces only `occasion` |
| Wizard.PlannerWizard.SelectDestination | src/components/PlannerWizard.tsx:149 | a destination button replaces only `destination` |
| Wizard.PlannerWizard.Dispatch | src/components/PlannerWizard.tsx:168-187 | a user event reaches its handler only when its control is rendered and enabled (Back disabled on step 1, Next disabled on an invalid step) |
| Page.Handle | src/pages/Index.tsx:20-36 | `handleStartPlanning` and `handleBackToWizard` show the wizard and keep `planData`; `handleWizardComplete(d)` stores `d` and shows results; `handleBackToHome` shows home and clears `planData` |
| Page.Render | src/pages/Index.tsx:38-65 | the wizard renders exactly in the wizard view; results render exactly when the view is results and `planData` is set, and they show that `planData`; otherwise the home page renders |
| Page.HandleKeepsConsistent | src/pages/Index.tsx:17-36 | every handler keeps "view is results implies `planData` is set" |
| Page.RunKeepsConsistent | src/pages/Index.tsx:17-36 | any sequence of handlers keeps "view is results implies `planData` is set" |
| Page.ReachableResultsRender | src/pages/Index.tsx:55-63 | from the initial page, the results view always renders the results, never the home fallback |
| Page.CompletionShowsResults | src/pages/Index.tsx:24-27 | after `handleWizardComplete(d)` the page renders the results for exactly `d` |
| Page.IndexPage.constructor | src/pages/Index.tsx:17-18 | the page starts on the home view with `planData` null |
| Page.IndexPage.HandleStartPlanning | src/pages/Index.tsx:20-22 | sets the view to wizard, keeps `planData` |
| Page.IndexPage.HandleWizardComplete | src/pages/Index.tsx:24-27 | stores the answers and sets the view to results |
| Page.IndexPage.HandleBackToWizard | src/pages/Index.tsx:29-31 | sets the view to wizard, keeps `planData` |
| Page.IndexPage.HandleBackToHome | src/pages/Index.tsx:33-36 | sets the view to home and clears `planData` |
| Filters.Without | src/components/SmartFilters.tsx:42 | `filter(c => c !== x)` leaves no `x` behind and does not grow the list |
| Filters.WithoutCounts | src/components/SmartFilters.tsx:42 | every other value is kept as often as before, and exactly the occurrences of `x` are dropped |
| Filters.WithoutAppend | src/components/SmartFilters.tsx:42 | removal distributes over concatenation, so the remaining values keep their order |
| Filters.WithoutAbsent | src/components/SmartFilters.tsx:42 | removing an absent value returns the list unchanged |
| Filters.Toggle | src/components/SmartFilters.tsx:39-45 | the toggled value is in the result exactly when it was not in the list; a present value is removed everywhere, an absent one appended at the end; other values keep their multiplicity |
| Filters.ToggleTwiceRestores | src/components/SmartFilters.tsx:39-45 | toggling an absent value twice gives back the original list |
| Filters.ToggleKeepsNoDup | src/components/SmartFilters.tsx:39-45 | toggling never introduces a duplicate into a duplicate-free list |
| Filters.ToggleLength | src/components/SmartFilters.tsx:39-45 | on a duplicate-free list a toggle removes exactly one entry or adds exactly one |
| Filters.ActiveCount | src/components/SmartFilters.tsx:68-70 | the active-filter count is never negative |
| Filters.ActiveCountZeroIff | src/components/SmartFilters.tsx:68-70 | the count is 0 exactly when no cuisine or feature is selected, the price range is not narrowed and the venue type is `all` |
| Filters.DefaultsInactive | src/components/SmartFilters.tsx:16-21 | the initial filters (and so the cleared ones) have count 0 |
| Filters.ActiveCountIgnoresSearchAndSort | src/components/SmartFilters.tsx:68-70 | the count does not depend on the search term or the sort key |
| Filters.ToggleCuisineStep | src/components/SmartFilters.tsx:39-45 | a cuisine button from the offered list keeps the selections duplicate-free and offered, moves the count by exactly one, and leaves the features untouched |
| Filters.ToggleFeatureStep | src/components/SmartFilters.tsx:47-53 | a feature button from the offered list keeps the selections duplicate-free and offered, moves the count by exactly one, and leaves the cuisines untouched |
| Filters.ActiveCountBound | src/components/SmartFilters.tsx:23-29 | with selections drawn without duplicates from the eight cuisines and eight features, the badge never exceeds 18 |
| Filters.Apply | src/components/SmartFilters.tsx:72-224 | in both directions: the search box, an offered sort key and the Filters button always act, and the venue-type buttons, the slider, the offered cuisine and feature buttons and "Clear all filters" act while the panel is expanded, each with its handler's whole effect; a quick filter, a control of the collapsed panel and a value no control offers change nothing, so the new panel is determined by the event |
| Filters.DefaultsWellFormed | src/components/SmartFilters.tsx:15-21 | the initial (and cleared) filters have no selections, an offered venue type and an offered sort key |
| Filters.ApplyKeepsWellFormed | src/components/SmartFilters.tsx:72-224 | every user event keeps the selections duplicate-free and drawn from the offered lists, and the venue type and sort key offered |
| Filters.RunKeepsWellFormed | src/components/SmartFilters.tsx:39-66 | any sequence of user events keeps the filters well formed |
| Filters.ReachableCountBound | src/components/SmartFilters.tsx:68-70 | whatever the user does from the initial panel, the badge count stays between 0 and 18 |
| Filters.SmartFilters.constructor | src/components/SmartFilters.tsx:15-21 | the panel starts collapsed with every filter at its initial value |
| Filters.SmartFilters.HandleCuisineToggle | src/components/SmartFilters.tsx:39-45 | replaces the cuisine list by its toggle and nothing else |
| Filters.SmartFilters.HandleFeatureToggle | src/components/SmartFilters.tsx:47-53 | replaces the feature list by its toggle and nothing else |
| Filters.SmartFilters.HandleQuickFilter | src/components/SmartFilters.tsx:55-57 | a quick-filter button changes no state |
| Filters.SmartFilters.ClearAllFilters | src/components/SmartFilters.tsx:59-66 | every filter field returns to its initial value; `isExpanded` is untouched |
| Filters.SmartFilters.SetSearchTerm | src/components/SmartFilters.tsx:81 | the search box replaces only the search term |
| Filters.SmartFilters.SetSortBy | src/components/SmartFilters.tsx:91 | the sort select replaces only the sort key |
| Filters.SmartFilters.SetVenueType | src/components/SmartFilters.tsx:145 | a venue-type button replaces only the venue type |
| Filters.SmartFilters.SetPriceRange | src/components/SmartFilters.tsx:160 | the slider replaces only the price range |
| Filters.SmartFilters.ToggleExpanded | src/components/SmartFilters.tsx:103 | the Filters button flips `isExpanded` and changes no filter |
| Filters.SmartFilters.Dispatch | src/components/SmartFilters.tsx:72-224 | a user event reaches its handler only when its control is on screen, and the new panel state is the one `Filters.Apply` gives |
| Results.FirstThree | src/components/PlanResults.tsx:155 | `slice(0, 3)` keeps the first min(3, n) venues in order |
| Results.SumCosts | src/components/PlanResults.tsx:155 | the `reduce` over costs that are not negative is not negative |
| Results.TotalEstimatedCost | src/components/PlanResults.tsx:155 | the estimate is the sum of `avgCost` of the first, second and third venue, for those that exist (0 for an empty list) |
| Results.SumCostsAppend | src/components/PlanResults.tsx:155 | the left-fold sum of costs is additive over concatenation |
| Results.TotalIgnoresRest | src/components/PlanResults.tsx:155 | venues after the third do not change the estimate |
| Results.TotalAtMostSum | src/components/PlanResults.tsx:155 | with non-negative costs the estimate lies between 0 and the cost of the whole list |
| Results.Savings | src/components/PlanResults.tsx:199 | `Math.floor(total * 0.2)` equals `total / 5` rounded down |
| Results.SavingsAtMostTotal | src/components/PlanResults.tsx:199 | for a non-negative total, the savings lie between 0 and the total |
| Results.MockSummary | src/components/PlanResults.tsx:17-129 | the mock list has six venues, an estimate of 1080 and savings of 216 |
| Results.LabelOf | src/components/PlanResults.tsx:167-172 | a lookup gives the label of a known id and renders nothing for an id that is not a key of the map (inherited property names aside, see Left out) |
| Results.LabelsMatchWizardIds | src/components/PlanResults.tsx:139-153 | the label maps have keys for exactly the occasion and destination ids the wizard offers, and every label is non-empty |
| Results.PlanResults.constructor | src/components/PlanResults.tsx:132 | the list starts as the full mock list, which establishes the invariant that it always is that list |
| Results.PlanResults.HandleFiltersChange | src/components/PlanResults.tsx:134-137 | the filter callback changes no state |
| Results.PlanResults.ResetFilters | src/components/PlanResults.tsx:225 | the reset button restores the full mock list, so it keeps the invariant |
| Results.PlanResults.Render | src/components/PlanResults.tsx:155-217 | the venue count and the `totalResults` passed to the filters both equal the list length; the reset state shows exactly for an empty list; the estimate and a fifth of it as savings; the heading's two labels; under the invariant that the list is the mock list: 6 venues, no reset state, 1080 and 216 |
| App.Step | src/pages/Index.tsx:38-63 | in both directions: a control on the current screen runs its page handler (Start Planning and New Search mount a fresh wizard, Back to Home keeps it, a wizard event applies to the wizard and a completion runs `handleWizardComplete`), and a control that is not on screen does nothing; `planData` changes only through a completion, to its answers, or through "Back to Home", to null |
| App.StepKeepsGood | src/pages/Index.tsx:38-63 | a user event on the screen on display keeps the results view backed by plan data, keeps that plan data complete, and keeps a wizard on screen reachable |
| App.RunKeepsGood | src/pages/Index.tsx:17-36 | any sequence of user events keeps that invariant |
| App.CompletionShowsResults | src/pages/Index.tsx:24-27 | a wizard completion takes the page to the results for exactly the wizard's answers, so the wizard leaves the screen |
| App.CompleteJourney | src/pages/Index.tsx:20-63 | from the home page, Start Planning and a filled-in wizard put the results for exactly those answers on screen, so the results view is reachable |
| App.ResultsAlwaysLabelled | src/components/PlanResults.tsx:167-172 | in every reachable state, a results screen shows a non-blank location and finds a label for both its occasion and its destination |

## Left out

- All JSX markup, styling, icons, animation classes and toasts: presentation only.
- The progress percentage `Math.round(step / 3 * 100)`: floating-point display arithmetic.
- src/components/EnhancedVenueCard.tsx and src/components/VenueCard.tsx are not part of this model. They render one record, and their favourite and bookmark flags only trigger toasts.
- src/components/InteractiveStats.tsx and src/components/TrendingSection.tsx are not part of this model. They are timer-driven, use `Math.random()` and are cosmetic.
- Filtering and sorting of venues: no such code exists. The filter callback only logs, `onFiltersChange` is never called and `sortBy` is never applied.
- The `Slider` internals (its step of 50 and its clamping to 0..1000): `SetPriceRange` accepts whatever range the slider reports.
- `console.log` in `handleFiltersChange`, and `toLocaleString`: I/O and library formatting.
- Results.Savings: states the figure with exact real arithmetic; the IEEE double rounding of `0.2` in `total * 0.2` is not modelled.
- Results.LabelOf: an id that names a property inherited from `Object.prototype` (such as `__proto__` or `toString`) is treated as unknown and renders nothing; the plain property read in the source would return an object or a function there. App.ResultsAlwaysLabelled shows that no such id reaches the heading.
- Venue ratings are exact reals, not doubles; nothing in the model computes with them.
- Wizard.PlannerWizard.HandleNext: `onComplete` is modelled as the returned argument of the call, not as a call into the parent; App models what the parent does with it.
