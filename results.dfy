/**
 * The results view (src/components/PlanResults.tsx).
 *
 * The view holds `filteredVenues`, initially the six mock venues. Its cost
 * summary adds up the average cost of the first three venues and offers a
 * fifth of that as possible savings; the heading looks the chosen occasion and
 * destination up in two label maps. Nothing ever narrows the list: the filter
 * callback only logs, so the empty-list "Reset Filters" button is the only
 * writer of the list.
 */
module Results {
  import opened Wrappers
  import Wizard
  import Filters

  datatype VenueType = Cafe | Restaurant | Hotel

  /** One mock venue record. Optional fields of the source are `Option`s. */
  datatype Venue = Venue(
    id: string,
    name: string,
    venueType: VenueType,
    rating: real,
    reviews: int,
    priceRange: string,
    address: string,
    distance: string,
    openHours: string,
    cuisine: seq<string>,
    specialties: seq<string>,
    avgCost: int,
    image: string,
    isOpen: bool,
    waitTime: Option<string>,
    offers: Option<seq<string>>,
    photosCount: int,
    lastVisited: Option<string>,
    trending: Option<bool>)

  const MockVenues: seq<Venue> := [
    Venue("1", "The Hole in the Wall Cafe", Cafe, 4.5, 1250, "₹₹", "Church Street, Bangalore", "2.3 km",
      "8:00 AM - 11:00 PM", ["Continental", "Italian"], ["Coffee", "Pasta", "Sandwiches"], 350,
      "https://images.unsplash.com/photo-1554118811-1e0d58224f24?w=400", true, Some("10-15 min"),
      Some(["20% off on drinks"]), 124, None, Some(true)),
    Venue("2", "Third Wave Coffee Roasters", Cafe, 4.3, 890, "₹₹", "Church Street, Bangalore", "1.8 km",
      "7:30 AM - 10:30 PM", ["Coffee", "Light Bites"], ["Specialty Coffee", "Croissants", "Bagels"], 280,
      "https://images.unsplash.com/photo-1501339847302-ac426a4a7cbb?w=400", true, None,
      None, 89, Some("2 days ago"), None),
    Venue("3", "Koshy's Restaurant", Restaurant, 4.2, 2100, "₹₹", "St. Marks Road, Bangalore", "2.1 km",
      "8:30 AM - 11:00 PM", ["Indian", "Continental"], ["South Indian", "Breakfast", "Filter Coffee"], 450,
      "https://images.unsplash.com/photo-1517248135467-4c7edcad34c4?w=400", false, None,
      None, 203, None, Some(true)),
    Venue("4", "Blue Tokai Coffee Roasters", Cafe, 4.4, 756, "₹₹", "Church Street, Bangalore", "2.0 km",
      "8:00 AM - 10:00 PM", ["Coffee", "Snacks"], ["Artisan Coffee", "Cold Brew", "Desserts"], 320,
      "https://images.unsplash.com/photo-1442512595331-e89e73853f31?w=400", true, Some("5-10 min"),
      None, 67, None, None),
    Venue("5", "Matteo Coffea", Cafe, 4.6, 432, "₹₹₹", "Church Street, Bangalore", "2.5 km",
      "9:00 AM - 11:30 PM", ["Italian", "Continental"], ["Pizza", "Gelato", "Espresso"], 550,
      "https://images.unsplash.com/photo-1555396273-367ea4eb4db5?w=400", true, None,
      Some(["Happy Hour 4-6 PM"]), 156, None, Some(true)),
    Venue("6", "The Breakfast Club", Restaurant, 4.1, 1680, "₹₹", "Church Street, Bangalore", "1.9 km",
      "8:00 AM - 4:00 PM", ["Continental", "American"], ["All-day Breakfast", "Pancakes", "Burgers"], 380,
      "https://images.unsplash.com/photo-1551218808-94e220e084d2?w=400", true, None,
      None, 98, Some("1 week ago"), None)
  ]

  // ---------------------------------------------------------------------------
  // Cost summary

  /** `reduce((sum, venue) => sum + venue.avgCost, 0)`: a left fold over the list. */
  function SumCosts(vs: seq<Venue>): (r: int)
    ensures (forall v :: v in vs ==> v.avgCost >= 0) ==> r >= 0
    decreases |vs|
  {
    if vs == [] then 0 else SumCosts(vs[..|vs| - 1]) + vs[|vs| - 1].avgCost
  }

  /** `slice(0, 3)`: at most the first three venues. */
  function FirstThree(vs: seq<Venue>): (r: seq<Venue>)
    ensures |r| == if |vs| < 3 then |vs| else 3
    ensures forall i :: 0 <= i < |r| ==> r[i] == vs[i]
  {
    if |vs| < 3 then vs else vs[..3]
  }

  /** `totalEstimatedCost`: the cost of the first venue, plus the second's, plus the third's, for those that exist. */
  function TotalEstimatedCost(vs: seq<Venue>): (r: int)
    ensures r ==
      (if |vs| > 0 then vs[0].avgCost else 0)
      + (if |vs| > 1 then vs[1].avgCost else 0)
      + (if |vs| > 2 then vs[2].avgCost else 0)
  {
    SumOfAtMostThree(FirstThree(vs));
    SumCosts(FirstThree(vs))
  }

  lemma {:induction false} SumCostsAppend(a: seq<Venue>, b: seq<Venue>)
    ensures SumCosts(a + b) == SumCosts(a) + SumCosts(b)
    decreases |b|
  {
    if b == [] {
      assert a + b == a;
    } else {
      var b' := b[..|b| - 1];
      assert (a + b)[..|a + b| - 1] == a + b';
      SumCostsAppend(a, b');
    }
  }

  /** The fold over at most three venues, written out. */
  lemma SumOfAtMostThree(f: seq<Venue>)
    requires |f| <= 3
    ensures SumCosts(f) ==
      (if |f| > 0 then f[0].avgCost else 0)
      + (if |f| > 1 then f[1].avgCost else 0)
      + (if |f| > 2 then f[2].avgCost else 0)
  {
    if |f| >= 1 {
      assert SumCosts(f[..1]) == f[0].avgCost by {
        assert f[..1][..0] == [];
      }
    }
    if |f| >= 2 {
      assert SumCosts(f[..2]) == f[0].avgCost + f[1].avgCost by {
        assert f[..2][..1] == f[..1];
      }
    }
    if |f| == 3 {
      assert f[..3] == f && f[..3][..2] == f[..2];
    } else if |f| == 2 {
      assert f[..2] == f;
    } else if |f| == 1 {
      assert f[..1] == f;
    }
  }

  /** Venues after the third do not change the estimate. */
  lemma TotalIgnoresRest(a: seq<Venue>, b: seq<Venue>)
    requires |a| >= 3
    ensures TotalEstimatedCost(a + b) == TotalEstimatedCost(a)
  {
    assert FirstThree(a + b) == FirstThree(a);
  }

  /** With costs that are not negative, the estimate lies between zero and the cost of the whole list. */
  lemma TotalAtMostSum(vs: seq<Venue>)
    requires forall v :: v in vs ==> v.avgCost >= 0
    ensures 0 <= TotalEstimatedCost(vs) <= SumCosts(vs)
  {
    var k := if |vs| < 3 then |vs| else 3;
    assert vs == vs[..k] + vs[k..];
    SumCostsAppend(vs[..k], vs[k..]);
    assert FirstThree(vs) == vs[..k];
  }

  /** `Math.floor(totalEstimatedCost * 0.2)`, on exact reals: the total divided by five, rounded down. */
  function Savings(total: int): (r: int)
    ensures r == total / 5
  {
    var q, m := total / 5, total % 5;
    assert total == 5 * q + m && 0 <= m < 5;
    assert total as real * 0.2 == q as real + m as real / 5.0;
    assert q as real <= total as real * 0.2 < q as real + 1.0;
    (total as real * 0.2).Floor
  }

  /** For a total that is not negative, the savings never exceed it. */
  lemma SavingsAtMostTotal(total: int)
    requires total >= 0
    ensures 0 <= Savings(total) <= total
  {
  }

  lemma MockSummary()
    ensures |MockVenues| == 6
    ensures TotalEstimatedCost(MockVenues) == 1080
    ensures Savings(TotalEstimatedCost(MockVenues)) == 216
  {
  }

  // ---------------------------------------------------------------------------
  // Heading labels

  const OccasionLabels: map<string, string> := map[
    "date" := "\U{1F495} Date",
    "friends" := "\U{1F465} Friends",
    "dinner" := "\U{1F37D}\U{FE0F} Dinner",
    "trip" := "\U{1F5FA}\U{FE0F} Trip",
    "solo" := "\U{2615} Solo"
  ]

  const DestinationLabels: map<string, string> := map[
    "church-street" := "Church Street",
    "mg-road" := "MG Road",
    "commercial-street" := "Commercial Street",
    "koramangala" := "Koramangala",
    "indiranagar" := "Indiranagar"
  ]

  /** A label lookup as rendered: a missing key is `undefined`, which renders as nothing. */
  function LabelOf(labels: map<string, string>, id: string): (r: string)
    ensures id in labels ==> r == labels[id]
    ensures id !in labels ==> r == ""
  {
    if id in labels then labels[id] else ""
  }

  /** The label maps have a key for exactly the ids the wizard offers, and every label is non-empty. */
  lemma LabelsMatchWizardIds()
    ensures forall id :: id in OccasionLabels <==> id in Wizard.OccasionIds
    ensures forall id :: id in DestinationLabels <==> id in Wizard.DestinationIds
    ensures forall id :: id in OccasionLabels ==> OccasionLabels[id] != ""
    ensures forall id :: id in DestinationLabels ==> DestinationLabels[id] != ""
  {
  }

  // ---------------------------------------------------------------------------
  // The component

  /** What the view shows about the current list and search. */
  datatype Summary = Summary(
    occasionLabel: string,
    destinationLabel: string,
    venuesFound: int,
    estimatedCost: int,
    savings: int,
    totalResults: int,
    showsReset: bool)

  class PlanResults {
    const searchData: Wizard.WizardData
    var filteredVenues: seq<Venue>

    /**
     * The list's only writers are its initial value and the reset button, and
     * both use the full mock list; so the list always is that list, and the
     * empty state with its reset button never shows.
     */
    ghost predicate Valid()
      reads this
    {
      filteredVenues == MockVenues
    }

    constructor (searchData: Wizard.WizardData)
      ensures this.searchData == searchData && filteredVenues == MockVenues
      ensures Valid()
    {
      this.searchData := searchData;
      filteredVenues := MockVenues;
    }

    /** `handleFiltersChange` only logs its argument. */
    method HandleFiltersChange(filters: Filters.FilterState)
      ensures unchanged(this)
    {
    }

    /** The "Reset Filters" button of the empty state. */
    method ResetFilters()
      modifies this
      ensures filteredVenues == MockVenues
      ensures Valid()
    {
      filteredVenues := MockVenues;
    }

    /** The figures the view renders. */
    method Render() returns (s: Summary)
      ensures s.venuesFound == |filteredVenues| && s.totalResults == |filteredVenues|
      ensures s.showsReset <==> filteredVenues == []
      ensures s.estimatedCost == TotalEstimatedCost(filteredVenues)
      ensures s.savings == s.estimatedCost / 5
      ensures s.occasionLabel == LabelOf(OccasionLabels, searchData.occasion)
      ensures s.destinationLabel == LabelOf(DestinationLabels, searchData.destination)
      ensures Valid() ==>
        s.venuesFound == 6 && s.totalResults == 6 && !s.showsReset && s.estimatedCost == 1080 && s.savings == 216
    {
      var total := TotalEstimatedCost(filteredVenues);
      s := Summary(
        LabelOf(OccasionLabels, searchData.occasion),
        LabelOf(DestinationLabels, searchData.destination),
        |filteredVenues|,
        total,
        Savings(total),
        |filteredVenues|,
        |filteredVenues| == 0);
    }
  }
}
