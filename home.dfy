/**
 * The home page's own state: the search term and the filters object that drive
 * the product grid, and the handlers through which the search panel, the
 * carousel and the "Clear Filters" button of the empty grid change them.
 */
module Home {
  import opened Wrappers
  import opened Catalog
  import opened ProductFilter
  import SearchPanel
  import Carousel

  /** No carousel id is a device type of the catalog ("laptops" is not "laptop"). */
  lemma CarouselIdsAreNotDeviceTypes(i: nat)
    requires i < |Carousel.Slides()|
    ensures Carousel.Slides()[i].id !in DeviceTypes()
  {
  }

  class HomePage {
    /** The imported catalog. */
    const products: seq<Product>
    var searchTerm: string
    var filters: Filters
    var selectedDeviceType: string

    /** Every product in the page's catalog has a listed device type. */
    predicate Valid()
      reads this
    {
      DeviceTypesListed(products)
    }

    /**
     * The page as it first appears over the catalog it imports (`AllProducts()`,
     * which meets the requirement by `CatalogDeviceTypesListed`): no search,
     * the default filters, the whole catalog shown.
     */
    constructor (catalog: seq<Product>)
      requires DeviceTypesListed(catalog)
      ensures Valid() && products == catalog
      ensures searchTerm == "" && filters == DefaultFilters() && selectedDeviceType == "All"
      ensures Shown() == catalog
    {
      DefaultShowsAll(catalog);
      products := catalog;
      searchTerm, filters, selectedDeviceType := "", DefaultFilters(), "All";
    }

    /** The products in the grid. */
    function Shown(): seq<Product>
      reads this
    {
      Apply(products, searchTerm, filters)
    }

    method HandleSearch(term: string)
      modifies this`searchTerm
      ensures searchTerm == term
    {
      searchTerm := term;
    }

    /**
     * The panel's `onFilter`: the event replaces the whole filters object, so
     * the device type is lost and the grid becomes empty.
     */
    method HandleFilter(event: SearchPanel.FilterEvent)
      modifies this`filters
      ensures filters == Filters(event.category, event.priceRange, None)
      ensures Shown() == []
    {
      filters := Filters(event.category, event.priceRange, None);
      MissingDeviceTypeShowsNothing(products, searchTerm, event.category, event.priceRange);
    }

    /** The carousel's `onCategorySelect`: sets the device type and keeps the category and the range. */
    method HandleCategorySelect(deviceType: string)
      requires Valid()
      modifies this`filters, this`selectedDeviceType
      ensures selectedDeviceType == deviceType
      ensures filters == old(filters).(deviceType := Some(deviceType))
      ensures deviceType !in DeviceTypes() ==> Shown() == []
    {
      selectedDeviceType := deviceType;
      filters := filters.(deviceType := Some(deviceType));
      if deviceType !in DeviceTypes() {
        UnknownDeviceTypeShowsNothing(products, searchTerm, filters);
      }
    }

    /** "Clear Filters" under an empty grid: back to the initial term and filters, so the whole catalog is shown. */
    method ClearFilters()
      modifies this`searchTerm, this`filters
      ensures searchTerm == "" && filters == Filters("All", None, Some("All"))
      ensures Shown() == products
    {
      searchTerm := "";
      filters := Filters("All", None, Some("All"));
      DefaultShowsAll(products);
    }
  }

  /** Exploring any carousel slide empties the grid. */
  method ExploreShowsNothing(page: HomePage, slide: Carousel.CarouselHeader, index: int)
    requires page.Valid() && 0 <= index < |Carousel.Slides()|
    modifies page
    ensures page.Shown() == []
  {
    var id := slide.HandleCategoryClick(index);
    CarouselIdsAreNotDeviceTypes(index);
    page.HandleCategorySelect(id);
  }
}
