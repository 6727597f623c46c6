/**
 * The search box and filter panel above the product grid. It keeps its own
 * copy of the typed term, the selected category and the selected price range,
 * and reports every change to its parent through two callbacks, `onSearch` and
 * `onFilter`; here a callback's argument is returned by the handler.
 */
module SearchPanel {
  import opened Wrappers
  import opened Catalog

  /** The object passed to `onFilter`. It carries no device type. */
  datatype FilterEvent = FilterEvent(category: string, priceRange: Option<PriceRange>)

  /** The panel's own category buttons. */
  function PanelCategories(): (r: seq<string>)
    ensures r == Categories()
  {
    ["All", "Gaming", "Professional", "Content Creation", "Premium", "Portable", "Classic"]
  }

  /** The panel's own price-range buttons (not the table exported with the catalog). */
  function PanelPriceRanges(): (r: seq<PriceRange>)
    ensures Tiles(r, 0)
    ensures forall i, j :: 0 <= i < j < |r| ==> r[i].name != r[j].name
  {
    [ PriceRange("Under $500", 0, Finite(500)),
      PriceRange("$500 - $1,000", 500, Finite(1000)),
      PriceRange("$1,000 - $2,000", 1000, Finite(2000)),
      PriceRange("$2,000 - $3,000", 2000, Finite(3000)),
      PriceRange("$3,000+", 3000, Unbounded) ]
  }

  /** A range button is highlighted when its label equals the selected range's label. */
  predicate Highlighted(selected: Option<PriceRange>, r: PriceRange) {
    selected.Some? && selected.value.name == r.name
  }

  /** Selecting a button of the table highlights that button and no other. */
  lemma HighlightsExactlySelected(k: nat, i: nat)
    requires k < |PanelPriceRanges()| && i < |PanelPriceRanges()|
    ensures Highlighted(Some(PanelPriceRanges()[k]), PanelPriceRanges()[i]) <==> i == k
  {
    var r := PanelPriceRanges();
    if i < k {
      assert r[i].name != r[k].name;
    } else if k < i {
      assert r[k].name != r[i].name;
    }
  }

  /** The "Clear Filters" link is shown while a category other than "All" or a price range is selected. */
  predicate ClearVisible(category: string, range: Option<PriceRange>) {
    category != "All" || range.Some?
  }

  class Panel {
    var searchTerm: string
    var selectedCategory: string
    var selectedPriceRange: Option<PriceRange>
    var filtersOpen: bool

    constructor ()
      ensures searchTerm == "" && selectedCategory == "All" && selectedPriceRange == None && !filtersOpen
      ensures !ShowsClear()
    {
      searchTerm, selectedCategory, selectedPriceRange, filtersOpen := "", "All", None, false;
    }

    predicate ShowsClear()
      reads this
    {
      ClearVisible(selectedCategory, selectedPriceRange)
    }

    /** Typing in the search box: the value is stored and passed on unchanged. */
    method HandleSearch(value: string) returns (searched: string)
      modifies this`searchTerm
      ensures searchTerm == value && searched == value
    {
      searchTerm := value;
      searched := value;
    }

    /** The cross inside the search box: empties the term and reports the empty term. */
    method ClearSearch() returns (searched: string)
      modifies this`searchTerm
      ensures searchTerm == "" && searched == ""
    {
      searchTerm := "";
      searched := "";
    }

    /** A category button: reports the new category with the current price range and no device type. */
    method HandleCategoryChange(category: string) returns (event: FilterEvent)
      modifies this`selectedCategory
      ensures selectedCategory == category
      ensures event == FilterEvent(category, selectedPriceRange)
      ensures category != "All" ==> ShowsClear()
    {
      selectedCategory := category;
      event := FilterEvent(category, selectedPriceRange);
    }

    /** A price-range button: reports the current category with the new range. */
    method HandlePriceRangeChange(range: PriceRange) returns (event: FilterEvent)
      modifies this`selectedPriceRange
      ensures selectedPriceRange == Some(range)
      ensures event == FilterEvent(selectedCategory, Some(range))
      ensures ShowsClear()
      ensures forall i :: 0 <= i < |PanelPriceRanges()| && range == PanelPriceRanges()[i] ==>
                forall j :: 0 <= j < |PanelPriceRanges()| ==> (Highlighted(selectedPriceRange, PanelPriceRanges()[j]) <==> j == i)
    {
      selectedPriceRange := Some(range);
      event := FilterEvent(selectedCategory, Some(range));
      forall i, j | 0 <= i < |PanelPriceRanges()| && range == PanelPriceRanges()[i] && 0 <= j < |PanelPriceRanges()|
        ensures Highlighted(selectedPriceRange, PanelPriceRanges()[j]) <==> j == i
      {
        HighlightsExactlySelected(i, j);
      }
    }

    /** "Clear Filters": resets the term, the category and the range, and reports all three resets. */
    method ClearFilters() returns (searched: string, event: FilterEvent)
      modifies this`searchTerm, this`selectedCategory, this`selectedPriceRange
      ensures searchTerm == "" && selectedCategory == "All" && selectedPriceRange == None
      ensures searched == "" && event == FilterEvent("All", None)
      ensures !ShowsClear()
    {
      searchTerm, selectedCategory, selectedPriceRange := "", "All", None;
      searched := "";
      event := FilterEvent("All", None);
    }

    /** The "Filters" toggle opens or closes the panel. */
    method ToggleFilters()
      modifies this`filtersOpen
      ensures filtersOpen == !old(filtersOpen)
    {
      filtersOpen := !filtersOpen;
    }
  }
}
