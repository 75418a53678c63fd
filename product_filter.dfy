/**
 * The filter half of the listing page's memoised computation: starting from a
 * copy of the catalog, `filtered` is narrowed stage by stage by category,
 * brand, price and rating. Each stage is `Array.prototype.filter`, and the
 * category, brand and rating stages are skipped when their criterion is empty
 * or falsy.
 */
module ProductFilter {
  import opened Wrappers
  import opened Text
  import opened Seqs
  import opened Catalog

  /** One category token against a product: `product.category.toLowerCase().includes(cat.replace("-", " "))`. */
  predicate CategoryTokenMatches(p: Product, token: string) {
    Includes(ToLower(p.category), ReplaceFirst(token, '-', ' '))
  }

  /** One brand token against a product: `product.name.toLowerCase().includes(brand.toLowerCase())`. */
  predicate BrandTokenMatches(p: Product, token: string) {
    Includes(ToLower(p.name), ToLower(token))
  }

  predicate SomeCategoryMatches(p: Product, categories: seq<string>) {
    exists t :: t in categories && CategoryTokenMatches(p, t)
  }

  predicate SomeBrandMatches(p: Product, brands: seq<string>) {
    exists b :: b in brands && BrandTokenMatches(p, b)
  }

  predicate InPriceRange(p: Product, range: PriceRange) {
    range.lo <= p.price <= range.hi
  }

  function CategoryStage(s: seq<Product>, categories: seq<string>): seq<Product> {
    if |categories| > 0 then Filter(s, p => SomeCategoryMatches(p, categories)) else s
  }

  function BrandStage(s: seq<Product>, brands: seq<string>): seq<Product> {
    if |brands| > 0 then Filter(s, p => SomeBrandMatches(p, brands)) else s
  }

  function PriceStage(s: seq<Product>, range: PriceRange): seq<Product> {
    Filter(s, p => InPriceRange(p, range))
  }

  function RatingStage(s: seq<Product>, rating: Option<real>): seq<Product> {
    if Truthy(rating) then Filter(s, (p: Product) => p.rating >= rating.value) else s
  }

  /** The category criterion alone: no tokens, or some token matches. */
  predicate CategoryOk(p: Product, categories: seq<string>) {
    |categories| == 0 || SomeCategoryMatches(p, categories)
  }

  predicate BrandOk(p: Product, brands: seq<string>) {
    |brands| == 0 || SomeBrandMatches(p, brands)
  }

  /** The rating criterion alone: a falsy minimum (`null` or `0`) admits every product. */
  predicate RatingOk(p: Product, rating: Option<real>) {
    !Truthy(rating) || p.rating >= rating.value
  }

  /** Whether one product passes all four criteria. */
  predicate Admits(c: FilterCriteria, p: Product) {
    CategoryOk(p, c.categories) && BrandOk(p, c.brands) && InPriceRange(p, c.priceRange) && RatingOk(p, c.rating)
  }

  /** The four stages in the source's order; each only drops products. */
  function FilterProducts(catalog: seq<Product>, c: FilterCriteria): (r: seq<Product>)
    ensures |r| <= |catalog|
  {
    var byCategory := CategoryStage(catalog, c.categories);
    var byBrand := BrandStage(byCategory, c.brands);
    var byPrice := PriceStage(byBrand, c.priceRange);
    RatingStage(byPrice, c.rating)
  }

  /**
   * The result is an order-preserving subsequence of the catalog holding exactly the
   * products that pass all four criteria.
   */
  lemma FilterProductsCorrect(catalog: seq<Product>, c: FilterCriteria)
    ensures FilterProducts(catalog, c) == Filter(catalog, p => Admits(c, p))
    ensures IsSubsequence(FilterProducts(catalog, c), catalog)
    ensures forall i :: 0 <= i < |FilterProducts(catalog, c)| ==>
      FilterProducts(catalog, c)[i] in catalog && Admits(c, FilterProducts(catalog, c)[i])
    ensures forall i :: 0 <= i < |catalog| && Admits(c, catalog[i]) ==> catalog[i] in FilterProducts(catalog, c)
  {
    StagesAreOnePass(catalog, c);
    FilterIsSubsequence(catalog, p => Admits(c, p));
    FilterMembers(catalog, p => Admits(c, p));
  }

  lemma CategoryStageIsFilter(s: seq<Product>, categories: seq<string>)
    ensures CategoryStage(s, categories) == Filter(s, p => CategoryOk(p, categories))
  {
    if |categories| == 0 {
      FilterKeepsAll(s, p => CategoryOk(p, categories));
    } else {
      FilterExtensional(s, p => SomeCategoryMatches(p, categories), p => CategoryOk(p, categories));
    }
  }

  lemma BrandStageIsFilter(s: seq<Product>, brands: seq<string>)
    ensures BrandStage(s, brands) == Filter(s, p => BrandOk(p, brands))
  {
    if |brands| == 0 {
      FilterKeepsAll(s, p => BrandOk(p, brands));
    } else {
      FilterExtensional(s, p => SomeBrandMatches(p, brands), p => BrandOk(p, brands));
    }
  }

  lemma RatingStageIsFilter(s: seq<Product>, rating: Option<real>)
    ensures RatingStage(s, rating) == Filter(s, p => RatingOk(p, rating))
  {
    if !Truthy(rating) {
      FilterKeepsAll(s, p => RatingOk(p, rating));
    } else {
      FilterExtensional(s, (p: Product) => p.rating >= rating.value, p => RatingOk(p, rating));
    }
  }

  /** Running the stages one after another is the same as one filter by `Admits`. */
  lemma StagesAreOnePass(catalog: seq<Product>, c: FilterCriteria)
    ensures RatingStage(PriceStage(BrandStage(CategoryStage(catalog, c.categories), c.brands), c.priceRange), c.rating)
         == Filter(catalog, p => Admits(c, p))
  {
    var cat := p => CategoryOk(p, c.categories);
    var brand := p => BrandOk(p, c.brands);
    var price := p => InPriceRange(p, c.priceRange);
    var rating := p => RatingOk(p, c.rating);
    var catBrand := p => CategoryOk(p, c.categories) && BrandOk(p, c.brands);
    var catBrandPrice := p => CategoryOk(p, c.categories) && BrandOk(p, c.brands) && InPriceRange(p, c.priceRange);

    var s1 := CategoryStage(catalog, c.categories);
    CategoryStageIsFilter(catalog, c.categories);
    var s2 := BrandStage(s1, c.brands);
    BrandStageIsFilter(s1, c.brands);
    FilterFilter(catalog, cat, brand, catBrand);
    var s3 := PriceStage(s2, c.priceRange);
    FilterFilter(catalog, catBrand, price, catBrandPrice);
    RatingStageIsFilter(s3, c.rating);
    FilterFilter(catalog, catBrandPrice, rating, p => Admits(c, p));
  }

  /** Filtering an already filtered list by the same criteria changes nothing. */
  lemma FilterProductsIdempotent(catalog: seq<Product>, c: FilterCriteria)
    ensures FilterProducts(FilterProducts(catalog, c), c) == FilterProducts(catalog, c)
  {
    StagesAreOnePass(catalog, c);
    StagesAreOnePass(FilterProducts(catalog, c), c);
    FilterIdempotent(catalog, p => Admits(c, p));
  }

  /** With no category, brand or rating restriction only the price range narrows the catalog. */
  lemma NoActiveFiltersMeansPriceOnly(catalog: seq<Product>, c: FilterCriteria)
    requires ActiveFiltersCount(c) == 0
    ensures FilterProducts(catalog, c) == PriceStage(catalog, c.priceRange)
  {
    assert c.categories == [] && c.brands == [] && !Truthy(c.rating);
  }

  /** Both price bounds are inclusive: a product priced exactly at either end passes the price test. */
  lemma PriceBoundsInclusive(p: Product, range: PriceRange)
    requires range.lo <= range.hi
    requires p.price == range.lo || p.price == range.hi
    ensures InPriceRange(p, range)
  {
  }

  /** The token "footwear" matches a product of category "Footwear". */
  lemma FootwearTokenMatches(p: Product)
    requires p.category == "Footwear"
    ensures CategoryTokenMatches(p, "footwear")
  {
    assert ToLower("Footwear") == "footwear";
    assert '-' !in "footwear";
    assert OccursAt("footwear", "footwear", 0);
  }

  /**
   * Of two footwear products priced 129 and 349, the criteria
   * `{ categories: ["footwear"], brands: [], priceRange: [0, 200], rating: null }`
   * let only the 129 one through.
   */
  lemma FootwearUnder200(cheap: Product, dear: Product)
    requires cheap.category == "Footwear" && dear.category == "Footwear"
    requires cheap.price == 129 && dear.price == 349
    ensures FilterProducts([cheap, dear], FilterCriteria(["footwear"], [], PriceRange(0, 200), None)) == [cheap]
  {
    FootwearCriteriaAdmit(cheap, dear);
    FilterFirstOfTwo([cheap, dear], FilterCriteria(["footwear"], [], PriceRange(0, 200), None));
  }

  /** The criteria admit the footwear product priced 129 and reject the one priced 349. */
  lemma FootwearCriteriaAdmit(cheap: Product, dear: Product)
    requires cheap.category == "Footwear" && cheap.price == 129 && dear.price == 349
    ensures Admits(FilterCriteria(["footwear"], [], PriceRange(0, 200), None), cheap)
    ensures !Admits(FilterCriteria(["footwear"], [], PriceRange(0, 200), None), dear)
  {
    FootwearTokenMatches(cheap);
    assert "footwear" in ["footwear"];
  }

  /** Of two products, when only the first passes, the filter returns just that one. */
  lemma FilterFirstOfTwo(s: seq<Product>, c: FilterCriteria)
    requires |s| == 2 && Admits(c, s[0]) && !Admits(c, s[1])
    ensures FilterProducts(s, c) == [s[0]]
  {
    StagesAreOnePass(s, c);
    assert s[1..][1..] == [];
  }
}
