/**
 * The records the listing page works on: a catalog Product, the filter
 * criteria the filter panel emits, and the active-filter count that both the
 * listing page and the filter panel display.
 */
module Catalog {
  import opened Wrappers

  /** The fields of a catalog entry that the listing pipeline reads; prices are whole dollars. */
  datatype Product = Product(id: string, name: string, category: string, price: int, rating: real, isNew: bool)

  /** The two ends of the price slider, both inclusive. */
  datatype PriceRange = PriceRange(lo: int, hi: int)

  /** `{ categories, brands, priceRange, rating }`; `rating` is `null` when no minimum is chosen. */
  datatype FilterCriteria = FilterCriteria(
    categories: seq<string>,
    brands: seq<string>,
    priceRange: PriceRange,
    rating: Option<real>)

  /** The criteria both components start from and "Clear all" restores: `{[], [], [0, 1000], null}`. */
  const Cleared := FilterCriteria([], [], PriceRange(0, 1000), None)

  /** JavaScript truthiness of a `number | null` rating: `null` and `0` are falsy. */
  predicate Truthy(rating: Option<real>) {
    rating.Some? && rating.value != 0.0
  }

  /** Category tokens plus brand tokens plus one for a truthy rating; the price range is never counted. */
  function ActiveFiltersCount(c: FilterCriteria): (r: nat)
    ensures |c.categories| + |c.brands| <= r <= |c.categories| + |c.brands| + 1
  {
    |c.categories| + |c.brands| + (if Truthy(c.rating) then 1 else 0)
  }

  /** The badge count is zero exactly when no category, brand or rating restriction is set. */
  lemma ActiveFiltersCountZero(c: FilterCriteria)
    ensures ActiveFiltersCount(c) == 0 <==> c.categories == [] && c.brands == [] && !Truthy(c.rating)
    ensures ActiveFiltersCount(c) >= |c.categories| + |c.brands|
  {
  }

  /** Moving the price slider never changes the count. */
  lemma ActiveFiltersCountIgnoresPrice(c: FilterCriteria, range: PriceRange)
    ensures ActiveFiltersCount(c.(priceRange := range)) == ActiveFiltersCount(c)
  {
  }
}
