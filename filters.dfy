/**
 * The filter panel's state (src/components/SmartFilters.tsx).
 *
 * The panel keeps a search term, a price range, the selected cuisines and
 * features, a sort key and a venue type. Cuisine and feature buttons toggle
 * membership in their list; "Clear all filters" puts every filter back to its
 * initial value; the badge on the Filters button shows how many filters are
 * active. The panel never reports its state to its parent, and nothing in it
 * filters or sorts venues.
 */
module Filters {

  /** The slider's `[low, high]` pair. */
  datatype PriceRange = PriceRange(low: int, high: int)

  /** The filter fields of the panel (everything but `isExpanded`). */
  datatype FilterState = FilterState(
    searchTerm: string,
    priceRange: PriceRange,
    selectedCuisines: seq<string>,
    selectedFeatures: seq<string>,
    sortBy: string,
    venueType: string)

  /** The initial value of every filter field, which "Clear all filters" restores. */
  const Defaults := FilterState("", PriceRange(0, 1000), [], [], "rating", "all")

  const CuisineOptions: seq<string> := ["Continental", "Indian", "Italian", "Chinese", "Mexican", "Thai", "Japanese", "American"]
  const FeatureOptions: seq<string> := ["Free WiFi", "Outdoor Seating", "Pet Friendly", "Live Music", "Parking", "AC", "Rooftop", "Late Night"]
  const VenueTypeOptions: seq<string> := ["all", "cafe", "restaurant", "hotel"]
  const SortOptions: seq<string> := ["rating", "price", "distance", "popularity", "newest"]

  // ---------------------------------------------------------------------------
  // Membership toggle

  predicate NoDup(s: seq<string>) {
    forall i, j :: 0 <= i < j < |s| ==> s[i] != s[j]
  }

  /** `xs.filter(c => c !== x)`: every occurrence of `x` removed, all else kept. */
  function Without(xs: seq<string>, x: string): (r: seq<string>)
    ensures x !in r
    ensures |r| <= |xs|
  {
    if xs == [] then []
    else (if xs[0] == x then [] else [xs[0]]) + Without(xs[1..], x)
  }

  /** What `Without` keeps: every other value as often as before, and nothing else. */
  lemma {:induction false} WithoutCounts(xs: seq<string>, x: string)
    ensures forall y :: y != x ==> multiset(Without(xs, x))[y] == multiset(xs)[y]
    ensures |Without(xs, x)| == |xs| - multiset(xs)[x]
  {
    if xs != [] {
      assert xs == [xs[0]] + xs[1..];
      WithoutCounts(xs[1..], x);
    }
  }

  /** Removal works element by element, so the survivors keep their order. */
  lemma {:induction false} WithoutAppend(a: seq<string>, b: seq<string>, x: string)
    ensures Without(a + b, x) == Without(a, x) + Without(b, x)
  {
    if a == [] {
      assert a + b == b;
    } else {
      var ab := a + b;
      assert ab[0] == a[0] && ab[1..] == a[1..] + b;
      WithoutAppend(a[1..], b, x);
      var h := if a[0] == x then [] else [a[0]];
      calc {
        Without(ab, x);
        h + Without(a[1..] + b, x);
        h + (Without(a[1..], x) + Without(b, x));
        (h + Without(a[1..], x)) + Without(b, x);
      }
    }
  }

  /** Removing a value that is absent changes nothing. */
  lemma {:induction false} WithoutAbsent(xs: seq<string>, x: string)
    requires x !in xs
    ensures Without(xs, x) == xs
  {
    if xs != [] {
      WithoutAbsent(xs[1..], x);
    }
  }

  /** `handleCuisineToggle`/`handleFeatureToggle` on a list: remove every occurrence when present, append when absent. */
  function Toggle(xs: seq<string>, x: string): (r: seq<string>)
    ensures x in r <==> x !in xs
    ensures x in xs ==> r == Without(xs, x)
    ensures x !in xs ==> r == xs + [x]
    ensures forall y :: y != x ==> multiset(r)[y] == multiset(xs)[y]
  {
    WithoutCounts(xs, x);
    if x in xs then Without(xs, x) else xs + [x]
  }

  /** Toggling an absent value twice gives back the original list. */
  lemma ToggleTwiceRestores(xs: seq<string>, x: string)
    requires x !in xs
    ensures Toggle(Toggle(xs, x), x) == xs
  {
    WithoutAppend(xs, [x], x);
    WithoutAbsent(xs, x);
    assert Without([x], x) == [];
  }

  /** A non-empty list has no duplicates exactly when its tail has none and does not contain its head. */
  lemma NoDupCons(xs: seq<string>)
    requires xs != []
    ensures NoDup(xs) <==> NoDup(xs[1..]) && xs[0] !in xs[1..]
  {
    var t := xs[1..];
    if NoDup(t) && xs[0] !in t {
      forall i, j | 0 <= i < j < |xs| ensures xs[i] != xs[j] {
        if i == 0 {
          assert xs[j] == t[j - 1];
        } else {
          assert xs[i] == t[i - 1] && xs[j] == t[j - 1];
        }
      }
    }
    if NoDup(xs) {
      forall i, j | 0 <= i < j < |t| ensures t[i] != t[j] {
        assert t[i] == xs[i + 1] && t[j] == xs[j + 1];
      }
      forall k | 0 <= k < |t| ensures t[k] != xs[0] {
        assert t[k] == xs[k + 1];
      }
    }
  }

  /** No duplicates means every value occurs at most once. */
  lemma {:induction false} NoDupIff(xs: seq<string>)
    ensures NoDup(xs) <==> forall y :: multiset(xs)[y] <= 1
  {
    if xs != [] {
      var t := xs[1..];
      assert xs == [xs[0]] + t;
      NoDupCons(xs);
      NoDupIff(t);
      if forall y :: multiset(xs)[y] <= 1 {
        forall y ensures multiset(t)[y] <= 1 {
          assert multiset(t)[y] <= multiset(xs)[y];
        }
        assert multiset(xs)[xs[0]] <= 1;
      }
    }
  }

  /** Toggling never puts a duplicate into a list that had none. */
  lemma ToggleKeepsNoDup(xs: seq<string>, x: string)
    requires NoDup(xs)
    ensures NoDup(Toggle(xs, x))
  {
    NoDupIff(xs);
    NoDupIff(Toggle(xs, x));
  }

  /** Toggling a present value of a duplicate-free list removes exactly one entry; toggling an absent one adds one. */
  lemma ToggleLength(xs: seq<string>, x: string)
    requires NoDup(xs)
    ensures |Toggle(xs, x)| == if x in xs then |xs| - 1 else |xs| + 1
  {
    NoDupIff(xs);
    WithoutCounts(xs, x);
  }

  // ---------------------------------------------------------------------------
  // Active filter count

  /** `activeFiltersCount`: selected cuisines and features, plus one for a narrowed price range, plus one for a venue type. */
  function ActiveCount(f: FilterState): (n: int)
    ensures n >= 0
  {
    |f.selectedCuisines| + |f.selectedFeatures|
    + (if f.priceRange.low > 0 || f.priceRange.high < 1000 then 1 else 0)
    + (if f.venueType != "all" then 1 else 0)
  }

  /** No filter is active exactly when nothing is selected, the price range is not narrowed and every venue type is allowed. */
  lemma ActiveCountZeroIff(f: FilterState)
    ensures ActiveCount(f) == 0 <==>
      f.selectedCuisines == [] && f.selectedFeatures == []
      && f.priceRange.low <= 0 && f.priceRange.high >= 1000 && f.venueType == "all"
  {
  }

  lemma DefaultsInactive()
    ensures ActiveCount(Defaults) == 0
  {
  }

  /** The search term and the sort key never count as active filters. */
  lemma ActiveCountIgnoresSearchAndSort(f: FilterState, term: string, key: string)
    ensures ActiveCount(f.(searchTerm := term, sortBy := key)) == ActiveCount(f)
  {
  }

  /** What the panel's controls can produce: duplicate-free selections drawn from the offered options, and an offered venue type. */
  predicate WellFormed(f: FilterState) {
    NoDup(f.selectedCuisines) && (forall c :: c in f.selectedCuisines ==> c in CuisineOptions)
    && NoDup(f.selectedFeatures) && (forall c :: c in f.selectedFeatures ==> c in FeatureOptions)
    && f.venueType in VenueTypeOptions && f.sortBy in SortOptions
  }

  /** The filter state after a cuisine button. */
  function ToggleCuisine(f: FilterState, c: string): FilterState {
    f.(selectedCuisines := Toggle(f.selectedCuisines, c))
  }

  /** The filter state after a feature button. */
  function ToggleFeature(f: FilterState, c: string): FilterState {
    f.(selectedFeatures := Toggle(f.selectedFeatures, c))
  }

  /** A cuisine button moves the count by exactly one and keeps the state well formed. */
  lemma ToggleCuisineStep(f: FilterState, c: string)
    requires WellFormed(f) && c in CuisineOptions
    ensures WellFormed(ToggleCuisine(f, c))
    ensures ActiveCount(ToggleCuisine(f, c)) == ActiveCount(f) + (if c in f.selectedCuisines then -1 else 1)
    ensures ToggleCuisine(f, c).selectedFeatures == f.selectedFeatures
  {
    ToggleKeepsNoDup(f.selectedCuisines, c);
    ToggleLength(f.selectedCuisines, c);
    var r := Toggle(f.selectedCuisines, c);
    forall y | y in r ensures y in CuisineOptions {
      if y != c {
        assert multiset(r)[y] == multiset(f.selectedCuisines)[y];
      }
    }
  }

  /** A feature button moves the count by exactly one, keeps the state well formed and leaves the cuisines alone. */
  lemma ToggleFeatureStep(f: FilterState, c: string)
    requires WellFormed(f) && c in FeatureOptions
    ensures WellFormed(ToggleFeature(f, c))
    ensures ActiveCount(ToggleFeature(f, c)) == ActiveCount(f) + (if c in f.selectedFeatures then -1 else 1)
    ensures ToggleFeature(f, c).selectedCuisines == f.selectedCuisines
  {
    ToggleKeepsNoDup(f.selectedFeatures, c);
    ToggleLength(f.selectedFeatures, c);
    var r := Toggle(f.selectedFeatures, c);
    forall y | y in r ensures y in FeatureOptions {
      if y != c {
        assert multiset(r)[y] == multiset(f.selectedFeatures)[y];
      }
    }
  }

  /** The elements of a sequence, as a set. */
  function Elements(s: seq<string>): (r: set<string>)
    ensures forall y :: y in r <==> y in s
  {
    set y | y in s
  }

  lemma {:induction false} ElementsOfNoDup(s: seq<string>)
    requires NoDup(s)
    ensures |Elements(s)| == |s|
  {
    if s != [] {
      var t := s[1..];
      NoDupCons(s);
      ElementsOfNoDup(t);
      assert Elements(s) == Elements(t) + {s[0]};
    }
  }

  /** A duplicate-free selection from an option list is no longer than the list. */
  lemma SelectionBound(s: seq<string>, options: seq<string>)
    requires NoDup(s) && NoDup(options)
    requires forall y :: y in s ==> y in options
    ensures |s| <= |options|
  {
    ElementsOfNoDup(s);
    ElementsOfNoDup(options);
    var a, b := Elements(s), Elements(options);
    assert a <= b;
    assert b == a + (b - a) && a * (b - a) == {};
  }

  /** The badge can never show more than every cuisine, every feature, the price and the type: 18. */
  lemma ActiveCountBound(f: FilterState)
    requires WellFormed(f)
    ensures ActiveCount(f) <= |CuisineOptions| + |FeatureOptions| + 2 == 18
  {
    assert NoDup(CuisineOptions);
    assert NoDup(FeatureOptions);
    SelectionBound(f.selectedCuisines, CuisineOptions);
    SelectionBound(f.selectedFeatures, FeatureOptions);
  }

  // ---------------------------------------------------------------------------
  // User events on the rendered panel

  /** The panel's state: the filters and whether the expanded section is open. */
  datatype PanelState = PanelState(filters: FilterState, isExpanded: bool)

  const InitialPanel := PanelState(Defaults, false)

  /** What the user can do to the rendered panel. */
  datatype PanelEvent =
    | TypeSearch(term: string)
    | ChooseSort(key: string)
    | ClickFiltersButton
    | ClickQuickFilter(id: string)
    | ClickVenueType(venueType: string)
    | MoveSlider(range: PriceRange)
    | ClickCuisine(cuisine: string)
    | ClickFeature(feature: string)
    | ClickClearAll

  /**
   * One user event. The search box, the sort select, the Filters button and the
   * quick filters are always on screen; the venue-type buttons, the slider, the
   * cuisine and feature buttons and "Clear all filters" only while the panel is
   * expanded. A select and a row of buttons only offer their listed values.
   */
  function Apply(p: PanelState, e: PanelEvent): (r: PanelState)
    ensures e.ClickQuickFilter? ==> r == p
    ensures r.isExpanded != p.isExpanded ==> e.ClickFiltersButton?
    ensures r.filters.selectedCuisines != p.filters.selectedCuisines ==>
      p.isExpanded && ((e.ClickCuisine? && e.cuisine in CuisineOptions) || e.ClickClearAll?)
    ensures r.filters.selectedFeatures != p.filters.selectedFeatures ==>
      p.isExpanded && ((e.ClickFeature? && e.feature in FeatureOptions) || e.ClickClearAll?)
    ensures ActiveCount(r.filters) != ActiveCount(p.filters) ==> p.isExpanded
    // and every control on screen does what its handler does
    ensures e.TypeSearch? ==> r == p.(filters := p.filters.(searchTerm := e.term))
    ensures e.ChooseSort? && e.key in SortOptions ==> r == p.(filters := p.filters.(sortBy := e.key))
    ensures e.ClickFiltersButton? ==> r == p.(isExpanded := !p.isExpanded)
    ensures e.ClickVenueType? && p.isExpanded && e.venueType in VenueTypeOptions ==> r == p.(filters := p.filters.(venueType := e.venueType))
    ensures e.MoveSlider? && p.isExpanded ==> r == p.(filters := p.filters.(priceRange := e.range))
    ensures e.ClickCuisine? && p.isExpanded && e.cuisine in CuisineOptions ==> r == p.(filters := ToggleCuisine(p.filters, e.cuisine))
    ensures e.ClickFeature? && p.isExpanded && e.feature in FeatureOptions ==> r == p.(filters := ToggleFeature(p.filters, e.feature))
    ensures e.ClickClearAll? && p.isExpanded ==> r == p.(filters := Defaults)
    // and a hidden control, or a value no control offers, does nothing
    ensures !p.isExpanded && (e.ClickVenueType? || e.MoveSlider? || e.ClickCuisine? || e.ClickFeature? || e.ClickClearAll?) ==> r == p
    ensures
      ((e.ChooseSort? && e.key !in SortOptions) || (e.ClickVenueType? && e.venueType !in VenueTypeOptions)
       || (e.ClickCuisine? && e.cuisine !in CuisineOptions) || (e.ClickFeature? && e.feature !in FeatureOptions))
      ==> r == p
  {
    var f := p.filters;
    match e
    case TypeSearch(term) => p.(filters := f.(searchTerm := term))
    case ChooseSort(key) => if key in SortOptions then p.(filters := f.(sortBy := key)) else p
    case ClickFiltersButton => p.(isExpanded := !p.isExpanded)
    case ClickQuickFilter(_) => p
    case ClickVenueType(t) =>
      if p.isExpanded && t in VenueTypeOptions then p.(filters := f.(venueType := t)) else p
    case MoveSlider(range) => if p.isExpanded then p.(filters := f.(priceRange := range)) else p
    case ClickCuisine(c) =>
      if p.isExpanded && c in CuisineOptions then p.(filters := ToggleCuisine(f, c)) else p
    case ClickFeature(c) =>
      if p.isExpanded && c in FeatureOptions then p.(filters := ToggleFeature(f, c)) else p
    case ClickClearAll => if p.isExpanded then p.(filters := Defaults) else p
  }

  function Run(p: PanelState, es: seq<PanelEvent>): PanelState
    decreases |es|
  {
    if es == [] then p else Run(Apply(p, es[0]), es[1..])
  }

  /** The initial (and cleared) filters are well formed. */
  lemma DefaultsWellFormed()
    ensures WellFormed(Defaults)
  {
    assert "rating" == SortOptions[0];
    assert "all" == VenueTypeOptions[0];
  }

  lemma ApplyKeepsWellFormed(p: PanelState, e: PanelEvent)
    requires WellFormed(p.filters)
    ensures WellFormed(Apply(p, e).filters)
  {
    DefaultsWellFormed();
    match e
    case ClickCuisine(c) =>
      if p.isExpanded && c in CuisineOptions {
        ToggleCuisineStep(p.filters, c);
      }
    case ClickFeature(c) =>
      if p.isExpanded && c in FeatureOptions {
        ToggleFeatureStep(p.filters, c);
      }
    case _ =>
  }

  /** Whatever the user does, the filters stay well formed. */
  lemma {:induction false} RunKeepsWellFormed(p: PanelState, es: seq<PanelEvent>)
    requires WellFormed(p.filters)
    ensures WellFormed(Run(p, es).filters)
    decreases |es|
  {
    if es != [] {
      ApplyKeepsWellFormed(p, es[0]);
      RunKeepsWellFormed(Apply(p, es[0]), es[1..]);
    }
  }

  /** So the badge of a panel in use never shows more than 18. */
  lemma ReachableCountBound(es: seq<PanelEvent>)
    ensures 0 <= ActiveCount(Run(InitialPanel, es).filters) <= 18
  {
    DefaultsWellFormed();
    RunKeepsWellFormed(InitialPanel, es);
    ActiveCountBound(Run(InitialPanel, es).filters);
  }

  // ---------------------------------------------------------------------------
  // The component

  class SmartFilters {
    const totalResults: int
    var isExpanded: bool
    var searchTerm: string
    var priceRange: PriceRange
    var selectedCuisines: seq<string>
    var selectedFeatures: seq<string>
    var sortBy: string
    var venueType: string

    function Current(): FilterState
      reads this
    {
      FilterState(searchTerm, priceRange, selectedCuisines, selectedFeatures, sortBy, venueType)
    }

    function Panel(): PanelState
      reads this
    {
      PanelState(Current(), isExpanded)
    }

    constructor (totalResults: int)
      ensures this.totalResults == totalResults
      ensures Current() == Defaults && !isExpanded
    {
      this.totalResults := totalResults;
      isExpanded := false;
      searchTerm := "";
      priceRange := PriceRange(0, 1000);
      selectedCuisines := [];
      selectedFeatures := [];
      sortBy := "rating";
      venueType := "all";
    }

    method HandleCuisineToggle(cuisine: string)
      modifies this
      ensures Current() == ToggleCuisine(old(Current()), cuisine) && isExpanded == old(isExpanded)
    {
      if cuisine in selectedCuisines {
        selectedCuisines := Without(selectedCuisines, cuisine);
      } else {
        selectedCuisines := selectedCuisines + [cuisine];
      }
    }

    method HandleFeatureToggle(feature: string)
      modifies this
      ensures Current() == ToggleFeature(old(Current()), feature) && isExpanded == old(isExpanded)
    {
      if feature in selectedFeatures {
        selectedFeatures := Without(selectedFeatures, feature);
      } else {
        selectedFeatures := selectedFeatures + [feature];
      }
    }

    /** The quick-filter buttons call a handler with an empty body. */
    method HandleQuickFilter(filterId: string)
      ensures unchanged(this)
    {
    }

    method ClearAllFilters()
      modifies this
      ensures Current() == Defaults && isExpanded == old(isExpanded)
    {
      searchTerm := "";
      priceRange := PriceRange(0, 1000);
      selectedCuisines := [];
      selectedFeatures := [];
      sortBy := "rating";
      venueType := "all";
    }

    method SetSearchTerm(term: string)
      modifies this
      ensures Current() == old(Current()).(searchTerm := term) && isExpanded == old(isExpanded)
    {
      searchTerm := term;
    }

    method SetSortBy(key: string)
      modifies this
      ensures Current() == old(Current()).(sortBy := key) && isExpanded == old(isExpanded)
    {
      sortBy := key;
    }

    method SetVenueType(venue: string)
      modifies this
      ensures Current() == old(Current()).(venueType := venue) && isExpanded == old(isExpanded)
    {
      venueType := venue;
    }

    method SetPriceRange(range: PriceRange)
      modifies this
      ensures Current() == old(Current()).(priceRange := range) && isExpanded == old(isExpanded)
    {
      priceRange := range;
    }

    method ToggleExpanded()
      modifies this
      ensures Current() == old(Current()) && isExpanded == !old(isExpanded)
    {
      isExpanded := !isExpanded;
    }

    /** Routes one user event to the handler its control calls, if that control is on screen. */
    method Dispatch(e: PanelEvent)
      modifies this
      ensures Panel() == Apply(old(Panel()), e)
    {
      match e
      case TypeSearch(term) => SetSearchTerm(term);
      case ChooseSort(key) => if key in SortOptions { SetSortBy(key); }
      case ClickFiltersButton => ToggleExpanded();
      case ClickQuickFilter(id) => HandleQuickFilter(id);
      case ClickVenueType(t) => if isExpanded && t in VenueTypeOptions { SetVenueType(t); }
      case MoveSlider(range) => if isExpanded { SetPriceRange(range); }
      case ClickCuisine(c) => if isExpanded && c in CuisineOptions { HandleCuisineToggle(c); }
      case ClickFeature(c) => if isExpanded && c in FeatureOptions { HandleFeatureToggle(c); }
      case ClickClearAll => if isExpanded { ClearAllFilters(); }
    }
  }
}
