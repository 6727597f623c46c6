/**
 * The product-grid predicate of the home page: a product is shown when it passes
 * the search, the category, the device-type and the price-range tests together.
 */
module ProductFilter {
  import opened Wrappers
  import opened Catalog
  import Seqs
  import Text

  /**
   * The page's filters object. `deviceType` is None when the object has no
   * `deviceType` key at all (its value is then `undefined`).
   */
  datatype Filters = Filters(category: string, priceRange: Option<PriceRange>, deviceType: Option<string>)

  /** The filters the page starts with and restores on "Clear Filters". */
  function DefaultFilters(): Filters {
    Filters("All", None, Some("All"))
  }

  /** Case-insensitive search over the name, the category and the features; specs are not searched. */
  predicate MatchesSearch(p: Product, term: string) {
    term == ""
    || Text.ContainsIgnoreCase(p.name, term)
    || Text.ContainsIgnoreCase(p.category, term)
    || exists f :: f in p.features && Text.ContainsIgnoreCase(f, term)
  }

  predicate MatchesCategory(p: Product, f: Filters) {
    f.category == "All" || p.category == f.category
  }

  /** An absent device type equals neither "All" nor any product's device type. */
  predicate MatchesDeviceType(p: Product, f: Filters) {
    f.deviceType == Some("All") || f.deviceType == Some(p.deviceType)
  }

  predicate MatchesPrice(p: Product, f: Filters) {
    f.priceRange.None? || InRange(p.price, f.priceRange.value)
  }

  predicate Matches(p: Product, term: string, f: Filters) {
    MatchesSearch(p, term) && MatchesCategory(p, f) && MatchesDeviceType(p, f) && MatchesPrice(p, f)
  }

  /** The products shown for a search term and a filters object. */
  function Apply(products: seq<Product>, term: string, f: Filters): (r: seq<Product>)
    ensures forall p :: p in r ==> p in products && Matches(p, term, f)
    ensures forall p :: p in products && Matches(p, term, f) ==> p in r
    ensures Seqs.IsSubsequence(r, products)
  {
    Seqs.FilterIsSubsequence(products, p => Matches(p, term, f));
    Seqs.Filter(products, p => Matches(p, term, f))
  }

  /** Each product is shown as many times as it is listed when it matches, and not at all otherwise. */
  lemma ApplyMultiplicity(products: seq<Product>, term: string, f: Filters, p: Product)
    ensures multiset(Apply(products, term, f))[p] == if Matches(p, term, f) then multiset(products)[p] else 0
  {
    Seqs.FilterMultiplicity(products, q => Matches(q, term, f), p);
  }

  /** With no search and no filter, every product is shown, in catalog order. */
  lemma DefaultShowsAll(products: seq<Product>)
    ensures Apply(products, "", DefaultFilters()) == products
  {
    Seqs.FilterAllPass(products, p => Matches(p, "", DefaultFilters()));
  }

  /** Filtering what is shown again with the same criteria changes nothing. */
  lemma ApplyIdempotent(products: seq<Product>, term: string, f: Filters)
    ensures Apply(Apply(products, term, f), term, f) == Apply(products, term, f)
  {
    Seqs.FilterIdempotent(products, p => Matches(p, term, f));
  }

  /** A filters object without a device type shows no product at all. */
  lemma MissingDeviceTypeShowsNothing(products: seq<Product>, term: string, category: string, range: Option<PriceRange>)
    ensures Apply(products, term, Filters(category, range, None)) == []
  {
    Seqs.FilterNonePass(products, p => Matches(p, term, Filters(category, range, None)));
  }

  /** Every product of `products` has one of the listed device types. */
  predicate DeviceTypesListed(products: seq<Product>) {
    forall p :: p in products ==> p.deviceType in DeviceTypes()
  }

  /** A device type that is neither "All" nor listed in the vocabulary shows none of such products. */
  lemma UnknownDeviceTypeShowsNothing(products: seq<Product>, term: string, f: Filters)
    requires DeviceTypesListed(products)
    requires f.deviceType.Some? && f.deviceType.value !in DeviceTypes()
    ensures Apply(products, term, f) == []
  {
    Seqs.FilterNonePass(products, p => Matches(p, term, f));
  }

  /** The catalog's products all have listed device types. */
  lemma CatalogDeviceTypesListed()
    ensures DeviceTypesListed(AllProducts())
  {
    forall p | p in AllProducts()
      ensures p.deviceType in DeviceTypes()
    {
      var i :| 0 <= i < |AllProducts()| && AllProducts()[i] == p;
      ProductsWellFormed(i);
    }
  }

  /** Both ends of a selected price range are kept. */
  lemma PriceEndsIncluded(p: Product, f: Filters)
    requires f.priceRange.Some?
    requires p.price == f.priceRange.value.min || f.priceRange.value.max == Finite(p.price)
    requires f.priceRange.value.max.Finite? ==> f.priceRange.value.min <= f.priceRange.value.max.n
    ensures MatchesPrice(p, f)
  {
  }

  /** A category or device type other than "All" is matched by exact equality only. */
  lemma ExactEquality(p: Product, f: Filters)
    ensures f.category != "All" ==> (MatchesCategory(p, f) <==> p.category == f.category)
    ensures f.deviceType != Some("All") ==> (MatchesDeviceType(p, f) <==> f.deviceType == Some(p.deviceType))
  {
  }

  /** A term that occurs in the product's name, exactly as typed, is found. */
  lemma NameOccurrenceFound(p: Product, term: string, i: int)
    requires Text.OccursAt(p.name, term, i)
    ensures MatchesSearch(p, term)
  {
    Text.OccurrenceFoundIgnoringCase(p.name, term, i);
  }

  /** A term that occurs in one of the product's features is found. */
  lemma FeatureOccurrenceFound(p: Product, term: string, k: nat, i: int)
    requires k < |p.features| && Text.OccursAt(p.features[k], term, i)
    ensures MatchesSearch(p, term)
  {
    Text.OccurrenceFoundIgnoringCase(p.features[k], term, i);
    assert p.features[k] in p.features;
  }

  /** The letter case of the search term does not matter. */
  lemma SearchIgnoresTermCase(p: Product, term: string)
    ensures MatchesSearch(p, Text.ToLower(term)) == MatchesSearch(p, term)
  {
    var lower := Text.ToLower(term);
    Text.ContainsIgnoreCaseOfLower(p.name, term);
    Text.ContainsIgnoreCaseOfLower(p.category, term);
    forall f | f in p.features
      ensures Text.ContainsIgnoreCase(f, lower) == Text.ContainsIgnoreCase(f, term)
    {
      Text.ContainsIgnoreCaseOfLower(f, term);
    }
  }

  /** The specs of a product play no part in the search. */
  lemma SearchIgnoresSpecs(p: Product, specs: seq<(string, string)>, term: string)
    ensures MatchesSearch(p.(specs := specs), term) == MatchesSearch(p, term)
  {
  }
}
