/**
 * The sort half of the listing page's memoised computation: `filtered.sort(cmp)`
 * with one of five comparators, chosen by the sort key; "relevance" and any
 * unknown key leave the filtered order as it is. `Array.prototype.sort` is
 * stable (ECMA-262, 2019 edition onward, section 23.1.3.30 in current
 * editions), so its result is the sorted permutation that keeps tied elements
 * in input order; the model computes that permutation with an insertion sort
 * and proves it sorted, a permutation and stable.
 *
 * The "name-a-z" comparator calls `localeCompare`, whose collation depends on
 * the locale; it is a parameter here, `nameLe(a, b)` standing for
 * `a.localeCompare(b) <= 0`, and the lemmas ask of it only that it is a total
 * preorder.
 */
module ProductSort {
  import opened StableSort
  import opened Catalog

  /** The six values of the sort drop-down. */
  datatype SortKey = Relevance | PriceLowHigh | PriceHighLow | Rating | Newest | NameAZ

  /** The string value the drop-down emits for a key. */
  function KeyValue(k: SortKey): string {
    match k
    case Relevance => "relevance"
    case PriceLowHigh => "price-low-high"
    case PriceHighLow => "price-high-low"
    case Rating => "rating"
    case Newest => "newest"
    case NameAZ => "name-a-z"
  }

  /** The `switch (sortBy)`: the five named cases, and `default` for everything else. */
  function ParseSortKey(s: string): (r: SortKey)
    ensures r != Relevance ==> KeyValue(r) == s
  {
    if s == "price-low-high" then PriceLowHigh
    else if s == "price-high-low" then PriceHighLow
    else if s == "rating" then Rating
    else if s == "newest" then Newest
    else if s == "name-a-z" then NameAZ
    else Relevance
  }

  /** Every drop-down value selects its own key, and any other string falls back to relevance. */
  lemma ParseSortKeyRoundTrip(k: SortKey, s: string)
    ensures ParseSortKey(KeyValue(k)) == k
    ensures (forall k' :: s != KeyValue(k')) ==> ParseSortKey(s) == Relevance
  {
    if forall k' :: s != KeyValue(k') {
      assert s != KeyValue(PriceLowHigh) && s != KeyValue(PriceHighLow) && s != KeyValue(Rating);
      assert s != KeyValue(Newest) && s != KeyValue(NameAZ);
    }
  }

  /** `a.localeCompare(b)` by its sign: negative, zero or positive, as `nameLe` orders the two names. */
  function NameCompare(nameLe: (string, string) -> bool, a: string, b: string): (r: real)
    ensures r <= 0.0 <==> nameLe(a, b)
    ensures r == 0.0 <==> nameLe(a, b) && nameLe(b, a)
  {
    if nameLe(a, b) && nameLe(b, a) then 0.0 else if nameLe(a, b) then -1.0 else 1.0
  }

  /** The comparator passed to `sort` for each key (relevance never sorts). */
  function Compare(nameLe: (string, string) -> bool, k: SortKey, a: Product, b: Product): (r: real)
    ensures k == PriceLowHigh ==> (r <= 0.0 <==> a.price <= b.price)
    ensures k == PriceHighLow ==> (r <= 0.0 <==> a.price >= b.price)
    ensures k == Rating ==> (r <= 0.0 <==> a.rating >= b.rating)
    ensures k == Newest ==> (r <= 0.0 <==> a.isNew || !b.isNew)
    ensures k == NameAZ ==> (r <= 0.0 <==> nameLe(a.name, b.name))
    ensures k == Relevance ==> r == 0.0
  {
    match k
    case PriceLowHigh => (a.price - b.price) as real
    case PriceHighLow => (b.price - a.price) as real
    case Rating => b.rating - a.rating
    case Newest => ((if b.isNew then 1 else 0) - (if a.isNew then 1 else 0)) as real
    case NameAZ => NameCompare(nameLe, a.name, b.name)
    case Relevance => 0.0
  }

  /** `a` may stand before `b`: the comparator does not ask to swap them. */
  predicate Precedes(nameLe: (string, string) -> bool, k: SortKey, a: Product, b: Product) {
    Compare(nameLe, k, a, b) <= 0.0
  }

  /** Every comparator orders products by a total preorder, which is what makes a stable sort well defined. */
  lemma PrecedesTotalPreorder(nameLe: (string, string) -> bool, k: SortKey, a: Product, b: Product, c: Product)
    requires TotalPreorder(nameLe)
    ensures Precedes(nameLe, k, a, a)
    ensures Precedes(nameLe, k, a, b) || Precedes(nameLe, k, b, a)
    ensures Precedes(nameLe, k, a, b) && Precedes(nameLe, k, b, c) ==> Precedes(nameLe, k, a, c)
  {
  }

  /** The comparator as the relation "may stand before" that the stable sort works with. */
  function Le(nameLe: (string, string) -> bool, k: SortKey): (Product, Product) -> bool {
    (a: Product, b: Product) => Precedes(nameLe, k, a, b)
  }

  lemma LeTotalPreorder(nameLe: (string, string) -> bool, k: SortKey)
    requires TotalPreorder(nameLe)
    ensures TotalPreorder(Le(nameLe, k))
  {
    forall a, b, c {
      PrecedesTotalPreorder(nameLe, k, a, b, c);
    }
  }

  /** The `switch (sortBy)` over the filtered products. */
  function SortProducts(nameLe: (string, string) -> bool, s: seq<Product>, k: SortKey): (r: seq<Product>)
    ensures multiset(r) == multiset(s)
    ensures k == Relevance ==> r == s
  {
    if k == Relevance then s else InsertionSort(Le(nameLe, k), s)
  }

  /** The result is sorted, a permutation of the input and stable, for every key. */
  lemma SortProductsCorrect(nameLe: (string, string) -> bool, s: seq<Product>, k: SortKey, p: Product)
    requires TotalPreorder(nameLe)
    ensures multiset(SortProducts(nameLe, s, k)) == multiset(s)
    ensures Sorted(Le(nameLe, k), SortProducts(nameLe, s, k))
    ensures TiesWith(Le(nameLe, k), SortProducts(nameLe, s, k), p) == TiesWith(Le(nameLe, k), s, p)
  {
    LeTotalPreorder(nameLe, k);
    if k != Relevance {
      InsertionSortSorted(Le(nameLe, k), s);
      InsertionSortStable(Le(nameLe, k), s, p);
    }
  }

  /** Any sorted, stable permutation of the input, whatever algorithm produced it, is the model's result. */
  lemma SortProductsIsTheStableSort(nameLe: (string, string) -> bool, s: seq<Product>, k: SortKey, r: seq<Product>)
    requires TotalPreorder(nameLe)
    requires multiset(r) == multiset(s)
    requires Sorted(Le(nameLe, k), r)
    requires forall p :: TiesWith(Le(nameLe, k), r, p) == TiesWith(Le(nameLe, k), s, p)
    ensures r == SortProducts(nameLe, s, k)
  {
    var le := Le(nameLe, k);
    LeTotalPreorder(nameLe, k);
    forall p ensures TiesWith(le, r, p) == TiesWith(le, SortProducts(nameLe, s, k), p) {
      SortProductsCorrect(nameLe, s, k, p);
    }
    var q :| true;
    SortProductsCorrect(nameLe, s, k, q);
    StableSortUnique(le, r, SortProducts(nameLe, s, k));
  }

  /** What each key means for the order of the displayed products. */
  lemma SortProductsOrders(nameLe: (string, string) -> bool, s: seq<Product>, k: SortKey)
    requires TotalPreorder(nameLe)
    ensures var r := SortProducts(nameLe, s, k);
      k == PriceLowHigh ==> forall i, j :: 0 <= i < j < |r| ==> r[i].price <= r[j].price
    ensures var r := SortProducts(nameLe, s, k);
      k == PriceHighLow ==> forall i, j :: 0 <= i < j < |r| ==> r[i].price >= r[j].price
    ensures var r := SortProducts(nameLe, s, k);
      k == Rating ==> forall i, j :: 0 <= i < j < |r| ==> r[i].rating >= r[j].rating
    ensures var r := SortProducts(nameLe, s, k);
      k == Newest ==> forall i, j :: 0 <= i < j < |r| && r[j].isNew ==> r[i].isNew
    ensures var r := SortProducts(nameLe, s, k);
      k == NameAZ ==> forall i, j :: 0 <= i < j < |r| ==> nameLe(r[i].name, r[j].name)
  {
    var q :| true;
    SortProductsCorrect(nameLe, s, k, q);
  }

  /**
   * "name-a-z" on the Nike, iPhone and Sony products gives iPhone, Nike, Sony
   * under any collation that puts "iPhone 15 Pro Max" strictly before
   * "Nike Air Max 270" and that strictly before "Sony WH-1000XM5".
   */
  lemma NameSortExample(nameLe: (string, string) -> bool, nike: Product, iphone: Product, sony: Product)
    requires TotalPreorder(nameLe)
    requires nike.name == "Nike Air Max 270" && iphone.name == "iPhone 15 Pro Max" && sony.name == "Sony WH-1000XM5"
    requires nameLe(iphone.name, nike.name) && !nameLe(nike.name, iphone.name)
    requires nameLe(nike.name, sony.name) && !nameLe(sony.name, nike.name)
    ensures SortProducts(nameLe, [nike, iphone, sony], NameAZ) == [iphone, nike, sony]
  {
    var le := Le(nameLe, NameAZ);
    assert le(iphone, sony);
    assert [nike, iphone, sony][1..] == [iphone, sony] && [iphone, sony][1..] == [sony] && [sony][1..] == [];
    assert InsertionSort(le, [sony]) == [sony];
    assert InsertionSort(le, [iphone, sony]) == Insert(le, iphone, [sony]) == [iphone, sony];
    assert Insert(le, nike, [iphone, sony]) == [iphone] + Insert(le, nike, [sony]) == [iphone, nike, sony];
    assert InsertionSort(le, [nike, iphone, sony]) == Insert(le, nike, [iphone, sony]);
  }
}
