/**
 * The listing page's controller: the `filters`, `sortBy` and `currentPage`
 * state, the memoised filtered-and-sorted list (recomputed from
 * `[filters, sortBy]` only), and the two handlers that reset the page to 1.
 */
module ProductsPage {
  import opened Catalog
  import opened ProductFilter
  import opened ProductSort
  import opened Pagination
  import opened Numbers

  /** The memo body: filter by the criteria, then sort by the key named by `sortBy`, names collated by `nameLe`; never more products than the catalog. */
  function Listing(nameLe: (string, string) -> bool, catalog: seq<Product>, c: FilterCriteria, sortBy: string): (r: seq<Product>)
    ensures |r| <= |catalog|
  {
    var filtered := FilterProducts(catalog, c);
    var r := SortProducts(nameLe, filtered, ParseSortKey(sortBy));
    assert |r| == |multiset(r)| == |multiset(filtered)| == |filtered|;
    r
  }

  /** The listed products are exactly the catalog products the criteria admit, each as often as in the catalog. */
  lemma ListingContents(nameLe: (string, string) -> bool, catalog: seq<Product>, c: FilterCriteria, sortBy: string)
    ensures multiset(Listing(nameLe, catalog, c, sortBy)) == multiset(FilterProducts(catalog, c))
    ensures forall p :: p in Listing(nameLe, catalog, c, sortBy) <==> p in catalog && Admits(c, p)
  {
    var r := Listing(nameLe, catalog, c, sortBy);
    FilterProductsCorrect(catalog, c);
    assert forall p :: p in r <==> p in multiset(FilterProducts(catalog, c));
  }

  /** Under the `default` branch of the sort the listing is the filtered catalog in catalog order. */
  lemma ListingUnderRelevance(nameLe: (string, string) -> bool, catalog: seq<Product>, c: FilterCriteria, sortBy: string)
    requires ParseSortKey(sortBy) == Relevance
    ensures Listing(nameLe, catalog, c, sortBy) == FilterProducts(catalog, c)
  {
  }

  class ListingController {
    const catalog: seq<Product>
    /** The browser's `localeCompare`, as "may stand before". */
    const nameLe: (string, string) -> bool
    var filters: FilterCriteria
    var sortBy: string
    var currentPage: int
    /** The `useMemo` value, keyed on `[filters, sortBy]`. */
    var filteredAndSorted: seq<Product>

    ghost predicate Valid()
      reads this
    {
      filteredAndSorted == Listing(nameLe, catalog, filters, sortBy)
    }

    constructor(catalog: seq<Product>, nameLe: (string, string) -> bool)
      ensures Valid()
      ensures this.catalog == catalog && this.nameLe == nameLe
      ensures filters == Cleared && sortBy == "relevance" && currentPage == 1
    {
      this.catalog := catalog;
      this.nameLe := nameLe;
      filters := Cleared;
      sortBy := "relevance";
      currentPage := 1;
      filteredAndSorted := Listing(nameLe, catalog, Cleared, "relevance");
    }

    /** `handleFiltersChange`: new criteria, recomputed list, back to page 1. */
    method HandleFiltersChange(newFilters: FilterCriteria)
      requires Valid()
      modifies this
      ensures Valid()
      ensures filters == newFilters && sortBy == old(sortBy) && currentPage == 1
    {
      var recomputed := Listing(nameLe, catalog, newFilters, sortBy);
      filters, filteredAndSorted, currentPage := newFilters, recomputed, 1;
    }

    /** `handleSortChange`: new key, recomputed list, back to page 1. */
    method HandleSortChange(newSort: string)
      requires Valid()
      modifies this
      ensures Valid()
      ensures sortBy == newSort && filters == old(filters) && currentPage == 1
    {
      var recomputed := Listing(nameLe, catalog, filters, newSort);
      sortBy, filteredAndSorted, currentPage := newSort, recomputed, 1;
    }

    /** `onPageChange={setCurrentPage}`: only the page moves; the memoised list is not recomputed. */
    method SetCurrentPage(page: int)
      requires Valid()
      modifies this
      ensures Valid()
      ensures currentPage == page
      ensures filters == old(filters) && sortBy == old(sortBy) && filteredAndSorted == old(filteredAndSorted)
    {
      currentPage := page;
    }

    /** The current page of the listing: at most 12 products, and from page 1 on the next window of the list. */
    function PaginatedProducts(): (r: seq<Product>)
      reads this
      ensures |r| <= ITEMS_PER_PAGE
      ensures currentPage >= 1 ==> r == filteredAndSorted[Min(StartIndex(currentPage), |filteredAndSorted|)..
        Min(StartIndex(currentPage) + ITEMS_PER_PAGE, |filteredAndSorted|)]
    {
      PageItemsBounded(filteredAndSorted, currentPage);
      if currentPage >= 1 then
        PageItemsSize(filteredAndSorted, currentPage);
        PageItems(filteredAndSorted, currentPage)
      else
        PageItems(filteredAndSorted, currentPage)
    }

    function TotalPageCount(): nat
      reads this
    {
      TotalPages(|filteredAndSorted|)
    }
  }

  /** After any filter or sort change the first page is shown, and it holds the first (up to) 12 listed products. */
  method FilterChangeShowsFirstPage(catalog: seq<Product>, nameLe: (string, string) -> bool, c: FilterCriteria, key: string)
    returns (shown: seq<Product>)
    ensures shown == Listing(nameLe, catalog, c, key)[..Min(ITEMS_PER_PAGE, |Listing(nameLe, catalog, c, key)|)]
  {
    var page := new ListingController(catalog, nameLe);
    page.HandleSortChange(key);
    page.HandleFiltersChange(c);
    assert page.currentPage == 1;
    PageItemsSize(page.filteredAndSorted, 1);
    shown := page.PaginatedProducts();
  }
}
