# Storefront logic of the E-Commerce Next.js app, modelled in Dafny

The app is a client-side storefront. Its pages and widgets hold their state in React
`useState` hooks and derive everything else from that state. This project models that
state logic, one Dafny module per component:

- **products listing** (`ProductsPage`, plus `ProductFilter`, `ProductSort`, `Pagination`,
  `Catalog`): the four-stage product filter, the six-way sort switch, 12-per-page
  pagination, and the two handlers that reset the page to 1.
- **filter panel** (`FilterPanel`): the category and brand checkbox lists, the price
  slider, the rating toggle, "Clear all", the active-filter badge count, and the criteria
  record each handler emits to its parent.
- **cart page** (`CartPage`): quantity updates with a floor of 1, removal, the SAVE10
  promo code, the quantity buttons and their disabled guards, and the order summary
  (subtotal, savings, 10 % promo, $9.99 shipping at or under $50, 8 % tax, total, and the
  free-shipping hint).
- **mini cart** (`MiniCart`): the header sheet's own cart. There an update to 0 removes
  the line and any other quantity is stored. Also its subtotal, savings and total.
- **checkout page** (`CheckoutPage`): the shipping form map and its input handler, the
  step-1 validity check on seven required fields, the two step transitions, and the
  totals (free shipping, 8 % tax).
- **product detail panel** (`ProductInfo`): first-available colour and size, clicks that
  ignore unavailable variants, a quantity stepper clamped to `[1, stockCount]`, the
  wishlist toggle, the star row and the "Save" badge.
- **deal of the day** (`DealOfTheDay`): the once-a-second countdown tick, its two-digit
  display, and the deal's stock and saving figures.
- **categories carousel** (`CategoriesCarousel`): a four-card window moved by the
  previous/next buttons and the dots.
- **related products** (`RelatedProducts`): up to four other products of the same
  category, and the "View All" slug.
- **mega menu** (`MegaMenu`): the sub-category slug, with every whitespace run turned
  into one `-`.

Components whose fields change in place are classes:

| class | source state |
|---|---|
| `ListingController` | products page |
| `Panel` | filter panel |
| `Cart` | cart page |
| `MiniCartSheet` | mini cart |
| `Checkout` | checkout page |
| `ProductPanel` | product detail panel |
| `Countdown` | deal of the day |
| `Carousel` | categories carousel |

Each handler is a method with a `modifies` clause. It states the whole new state, and
the class's `Valid()` invariant is what the UI guarantees (quantities at least 1, an
index within range, no duplicate ticked ids, the memoised list matching the state).
Derived values (filtering, sorting, totals, slugs) are functions, with lemmas relating
them to independent characterisations.

Modelling choices:

- Money is exact. Prices are whole dollars (`int`), and the 0.1, 0.08 and 9.99 factors
  are `real`.
- Ratings are `real`.
- `Array.prototype.sort` is stable (ECMA-262, 2019 edition onward). It is modelled by an
  insertion sort that is proved sorted, a permutation and stable. Any sorted, stable
  permutation is proved equal to it.
- `localeCompare` depends on the browser's locale. The "name-a-z" sort takes it as a
  parameter, `nameLe(a, b)` standing for `a.localeCompare(b) <= 0`, and its lemmas ask only
  that it is a total preorder. The ASCII case-insensitive lexicographic order (`Collation`)
  is one such order, used for the worked examples.
- `toLowerCase` is modelled on ASCII letters only.
- `\s` and `trim` use the ECMAScript whitespace set.
- `slice` follows its JavaScript semantics for negative and out-of-range indices.
- JavaScript truthiness is written out:
  - a rating of `null` or `0` is falsy;
  - a `||` fallback applies to an absent or zero original price;
  - an applied promo of `null` or `""` is falsy.

## Model

| member | source | states |
|---|---|---|
| `Pagination.TotalPages` | app/products/page.tsx:84 | `Math.ceil(n / 12)`: the least page count whose pages cover all `n` items; zero exactly for an empty list |
| `Pagination.Slice` | app/products/page.tsx:86 | `slice(start, end)`: the plain subsequence for in-range bounds, empty when `end <= start` or `start` is past the end |
| `Pagination.PageItemsSize` | app/products/page.tsx:85-86 | from page 1 on, a page is the window of up to 12 items after `(page - 1) * 12`, and its length is `min(12, max(0, n - start))` |
| `Pagination.PageBeyondTotalIsEmpty` | app/products/page.tsx:84-86 | a page number beyond `totalPages` shows nothing |
| `Pagination.PageItemsBounded` | app/products/page.tsx:86 | for any page number, negative included, a page holds at most 12 items |
| `Pagination.PageNonEmptyIff` | app/products/page.tsx:84-86 | a page from 1 on is non-empty exactly when it is at most `totalPages` |
| `Pagination.PagesUpToIsPrefix` | app/products/page.tsx:85-86 | pages 1..k laid end to end are the first `min(12k, n)` items |
| `Pagination.PagesPartition` | app/products/page.tsx:84-86 | pages 1..totalPages laid end to end are the whole list: nothing lost, nothing repeated |
| `Pagination.ShowingRangeMatchesPage` | app/products/page.tsx:115 | the "Showing a-b" numbers are exactly the 1-based positions of the items on the page |
| `Pagination.FourteenProducts` | app/products/page.tsx:84-86 | 14 products make 2 pages, of 12 and 2 items |
| `Catalog.ActiveFiltersCountZero` | app/products/page.tsx:98 | the badge count is 0 exactly when no category, brand or truthy rating is set |
| `Catalog.ActiveFiltersCountIgnoresPrice` | components/filter-panel.tsx:90 | the price range never contributes to the count |
| `Catalog.ActiveFiltersCount` | app/products/page.tsx:98 | the count is the number of category and brand tokens, plus at most one for the rating |
| `ProductFilter.FilterProductsCorrect` | app/products/page.tsx:31-56 | the staged filter is one filter by the conjunction of the four criteria: an order-preserving subsequence of the catalog holding exactly the admitted products |
| `ProductFilter.FilterProducts` | app/products/page.tsx:31-56 | the four stages in turn only drop products: never more than the catalog holds |
| `ProductFilter.CategoryStageIsFilter` | app/products/page.tsx:35-39 | with categories set, a product stays when its lower-cased category includes some token with its first `-` turned into a space; with none set, all stay |
| `ProductFilter.BrandStageIsFilter` | app/products/page.tsx:42-46 | with brands set, a product stays when its lower-cased name includes some lower-cased brand; with none set, all stay |
| `ProductFilter.RatingStageIsFilter` | app/products/page.tsx:54-56 | a truthy minimum rating keeps the products rated at least that; a null or zero rating keeps all |
| `ProductFilter.StagesAreOnePass` | app/products/page.tsx:32-56 | running the category, brand, price and rating stages in turn equals one filter by their conjunction |
| `ProductFilter.FilterProductsIdempotent` | app/products/page.tsx:31-56 | filtering the filtered list again by the same criteria changes nothing |
| `ProductFilter.NoActiveFiltersMeansPriceOnly` | app/products/page.tsx:35-56 | with a zero badge count only the price range narrows the catalog |
| `ProductFilter.PriceBoundsInclusive` | app/products/page.tsx:49-51 | both ends of the price range are inclusive |
| `ProductFilter.FootwearTokenMatches` | app/products/page.tsx:35-39 | the token "footwear" matches a product of category "Footwear" |
| `ProductFilter.FootwearUnder200` | app/products/page.tsx:31-56 | of footwear products priced 129 and 349, the criteria `{["footwear"], [], [0, 200], null}` let only the 129 one through |
| `Collation.NameLeTotalPreorder` | app/products/page.tsx:72-73 | the ASCII stand-in name order is reflexive, total and transitive |
| `Collation.NameTieIsCaseInsensitiveEquality` | app/products/page.tsx:72-73 | under the ASCII stand-in order, two names tie exactly when they agree up to ASCII letter case |
| `Collation.NameLeIsTotalPreorder` | app/products/page.tsx:72-73 | the stand-in order meets what the name sort asks of `localeCompare`: it is a total preorder |
| `Collation.CatalogNamesInOrder` | app/products/page.tsx:72-73 | the stand-in ranks "iPhone 15 Pro Max" strictly before "Nike Air Max 270", and that strictly before "Sony WH-1000XM5" |
| `Collation.NameAZExample` | app/products/page.tsx:72-73 | "name-a-z" on the Nike, iPhone and Sony products gives iPhone, Nike, Sony under the stand-in order |
| `StableSort.InsertionSortSorted` | app/products/page.tsx:59-78 | under a total preorder the sort's result is sorted |
| `StableSort.InsertionSortStable` | app/products/page.tsx:59-78 | for every element, the elements tied with it come out in their input order |
| `StableSort.StableSortUnique` | app/products/page.tsx:59-78 | two sorted, stable permutations of the same list are equal, so a stable sort has one result |
| `ProductSort.ParseSortKeyRoundTrip` | app/products/page.tsx:59-78 | each drop-down value selects its own case, and every other string takes the `default` (relevance) branch |
| `ProductSort.ParseSortKey` | app/products/page.tsx:59-78 | a named key is chosen only by its own drop-down value (the fallback to relevance is stated by `ParseSortKeyRoundTrip`) |
| `ProductSort.NameCompare` | app/products/page.tsx:72-73 | the sign of `localeCompare`: at most 0 exactly when `nameLe` lets the first name stand first, 0 exactly on a tie |
| `ProductSort.Compare` | app/products/page.tsx:60-74 | for each key, when the comparator lets `a` stand before `b`: lower or equal price, higher or equal price, higher or equal rating, `a` new or `b` not, names in order; relevance never compares |
| `ProductSort.PrecedesTotalPreorder` | app/products/page.tsx:60-74 | for any name order that is a total preorder, each of the five comparators orders products by a total preorder |
| `ProductSort.SortProducts` | app/products/page.tsx:59-78 | the sorted list is a permutation of the filtered list; relevance leaves it as it is |
| `ProductSort.SortProductsCorrect` | app/products/page.tsx:59-78 | for every key the result is sorted, a permutation and stable |
| `ProductSort.SortProductsIsTheStableSort` | app/products/page.tsx:59-78 | any sorted, stable permutation of the input (what `Array.prototype.sort` returns) is the model's result |
| `ProductSort.SortProductsOrders` | app/products/page.tsx:60-74 | price ascending, price descending, rating descending, new items first, names in order, each between every pair of positions |
| `ProductSort.NameSortExample` | app/products/page.tsx:72-73 | "name-a-z" on the Nike, iPhone and Sony products gives iPhone, Nike, Sony under any name order ranking those three names strictly in that order |
| `ProductsPage.ListingContents` | app/products/page.tsx:31-81 | the listed products are exactly the admitted catalog products, with their multiplicities |
| `ProductsPage.ListingUnderRelevance` | app/products/page.tsx:59-81 | when the sort key is relevance, the listing is the filtered catalog in its original order |
| `ProductsPage.Listing` | app/products/page.tsx:31-81 | the memo never lists more products than the catalog holds (its contents are stated by `ListingContents`) |
| `ProductsPage.ListingController.constructor` | app/products/page.tsx:20-28 | page 1, "relevance", cleared criteria, and the memo equals the listing of that state |
| `ProductsPage.ListingController.HandleFiltersChange` | app/products/page.tsx:88-91 | new criteria, same sort key, page 1, and the memo recomputed |
| `ProductsPage.ListingController.HandleSortChange` | app/products/page.tsx:93-96 | new sort key, same criteria, page 1, and the memo recomputed |
| `ProductsPage.ListingController.SetCurrentPage` | app/products/page.tsx:219 | only the page changes; the memo is kept |
| `ProductsPage.ListingController.PaginatedProducts` | app/products/page.tsx:85-86 | at most 12 products; from page 1 on, the page's window of the memoised list |
| `ProductsPage.FilterChangeShowsFirstPage` | app/products/page.tsx:88-96 | after a sort and a filter change the shown items are the first `min(12, n)` of the new listing |
| `FilterPanel.RemoveAllCorrect` | components/filter-panel.tsx:55 | unticking removes every copy of the id and keeps the other ids in order; a list without the id is unchanged |
| `FilterPanel.AddThenRemove` | components/filter-panel.tsx:55 | ticking then unticking an id gives back the list without it |
| `FilterPanel.RemoveAll` | components/filter-panel.tsx:55 | the id is gone and the list is no longer than before |
| `FilterPanel.ToggleRating` | components/filter-panel.tsx:77 | the result is null exactly when the clicked rating was the current one, and otherwise that rating |
| `FilterPanel.ToggleRatingProperties` | components/filter-panel.tsx:77 | clicking the current rating clears it; any other click selects that rating; two clicks from nothing give nothing |
| `FilterPanel.Panel.constructor` | components/filter-panel.tsx:39-42 | the panel starts with the cleared criteria and no duplicates |
| `FilterPanel.Panel.HandleCategoryChange` | components/filter-panel.tsx:54-58 | append when checked, drop every copy when not; the other fields are kept; the emitted record is the new state |
| `FilterPanel.Panel.HandleBrandChange` | components/filter-panel.tsx:60-64 | the same for brands |
| `FilterPanel.Panel.HandlePriceChange` | components/filter-panel.tsx:66-74 | stores the slider value, emits the new state, and the badge count does not move |
| `FilterPanel.Panel.HandleRatingChange` | components/filter-panel.tsx:76-80 | toggles the minimum rating and emits the new state |
| `FilterPanel.Panel.ClearAllFilters` | components/filter-panel.tsx:82-88 | back to `{[], [], [0, 1000], null}`, emitted as such, with a badge count of 0 |
| `FilterPanel.Panel.ClearRatingBadge` | components/filter-panel.tsx:134 | the rating badge's close button clears the rating only |
| `FilterPanel.Panel.ClickCategoryBox` | components/filter-panel.tsx:154-155 | a click unticks a ticked id (every copy removed) or appends an unticked one; brands, price and rating are kept; only that id's membership flips and the list stays duplicate-free |
| `FilterPanel.Panel.ClickBrandBox` | components/filter-panel.tsx:179-180 | the same for brands, with categories, price and rating kept |
| `CartPage.SetQuantityOnlyTouchesId` | app/cart/page.tsx:55 | the map keeps length and order, changes only `quantity`, and only on lines with the id |
| `Seqs.MapWhere` | app/cart/page.tsx:55 | `map` with a conditional update keeps the length |
| `Seqs.MapWhereCorrect` | components/mini-cart.tsx:54 | at each position an element the test accepts is replaced by its update, and any other element is kept |
| `CartPage.SetQuantity` | app/cart/page.tsx:55 | the update maps line for line: the cart keeps its length |
| `CartPage.RemoveId` | app/cart/page.tsx:59 | removal never adds a line |
| `CartPage.ListPrice` | app/cart/page.tsx:70 | the list price is the line's price or its truthy (present, non-zero) original price, and is 0 only when the price is |
| `CartPage.OrderSummary` | app/cart/page.tsx:68-75 | savings are original total minus subtotal; shipping is free exactly above $50; the total is 108 % of the discounted subtotal plus shipping |
| `CartPage.SetQuantityThenRemove` | app/cart/page.tsx:55-59 | apart from the id's lines, an update changes nothing |
| `CartPage.SetQuantityLastWins` | app/cart/page.tsx:55 | of two updates to the same id only the last counts |
| `CartPage.RemoveIdCorrect` | app/cart/page.tsx:58-60 | removal keeps the other lines in order and drops exactly those with the id |
| `CartPage.ShippingThreshold` | app/cart/page.tsx:73 | shipping is free exactly when the subtotal is over $50, $9.99 otherwise; the hint shows exactly when shipping is charged and is never negative |
| `CartPage.TotalClosedForm` | app/cart/page.tsx:72-75 | the total is 108 % of the discounted subtotal plus shipping, 97.2 % of the subtotal plus shipping under SAVE10 |
| `CartPage.PromoNeverRaisesTotal` | app/cart/page.tsx:72-75 | on a non-negative subtotal the promo never raises the total |
| `CartPage.SavingsNonNegative` | app/cart/page.tsx:69-71 | with list prices at least the prices and non-negative quantities, savings are non-negative |
| `CartPage.NoOriginalPricesNoSavings` | app/cart/page.tsx:70-71 | with no truthy original price the savings are 0 and the savings row is hidden |
| `CartPage.SubtotalAfterRemove` | app/cart/page.tsx:58-69 | removing an id takes exactly its lines' share off the subtotal |
| `CartPage.SubtotalAfterSetQuantity` | app/cart/page.tsx:53-69 | an update moves the subtotal by each updated line's price times its quantity change |
| `CartPage.InitialCartSummary` | app/cart/page.tsx:16-46 | the mock cart: subtotal $1806, savings $160, free shipping, tax $144.48, total $1950.48, and $1755.432 with SAVE10 |
| `CartPage.Cart.constructor` | app/cart/page.tsx:49-51 | the mock cart, an empty code and no promo |
| `CartPage.Cart.UpdateQuantity` | app/cart/page.tsx:53-56 | a quantity below 1 is ignored; otherwise the id's lines get it; quantities stay at least 1 |
| `CartPage.Cart.RemoveItem` | app/cart/page.tsx:58-60 | the cart without the id's lines |
| `CartPage.Cart.SetPromoCode` | app/cart/page.tsx:263 | the input's value is stored |
| `CartPage.Cart.ApplyPromoCode` | app/cart/page.tsx:62-67 | "save10" in any letter case applies SAVE10 and clears the input; anything else changes nothing |
| `CartPage.Cart.ClickMinus` | app/cart/page.tsx:178-179 | when enabled, the line's quantity drops by one; when disabled (at 1 or out of stock), nothing changes |
| `CartPage.Cart.ClickPlus` | app/cart/page.tsx:188-189 | when enabled, the line's quantity rises by one; out of stock, nothing changes |
| `MiniCart.RemoveIdCorrect` | components/mini-cart.tsx:58-60 | removal keeps the other lines in order and drops exactly the id's lines |
| `MiniCart.SetQuantity` | components/mini-cart.tsx:54 | same length; only `quantity` changes, only on the id's lines, whatever the new value's sign |
| `MiniCart.RemoveId` | components/mini-cart.tsx:59 | removal never adds a line |
| `MiniCart.SavingsPerLine` | components/mini-cart.tsx:62-64 | the savings are the sum of each line's markdown times its quantity |
| `MiniCart.SavingsShownOnMarkdown` | components/mini-cart.tsx:156 | with no mark-up, savings are non-negative, and one real markdown on a positive quantity shows the row |
| `MiniCart.MockCartSummary` | components/mini-cart.tsx:13-41 | the mock cart: subtotal and total $2598, savings $260 shown |
| `MiniCart.MiniCartSheet.constructor` | components/mini-cart.tsx:48 | the mock cart |
| `MiniCart.MiniCartSheet.UpdateQuantity` | components/mini-cart.tsx:50-56 | 0 removes the id's lines; any other value is stored; the header count drops only on removal |
| `MiniCart.MiniCartSheet.RemoveItem` | components/mini-cart.tsx:58-60 | the cart without the id's lines, an order-preserving subsequence |
| `MiniCart.MiniCartSheet.ClickMinus` | components/mini-cart.tsx:119 | one less; a line at 1 disappears; quantities stay at least 1 |
| `MiniCart.MiniCartSheet.ClickPlus` | components/mini-cart.tsx:128 | one more on the id's lines |
| `CheckoutPage.Step1ValidIff` | app/checkout/page.tsx:65-68 | step 1 is valid exactly when each of the seven required fields holds a non-whitespace character |
| `CheckoutPage.Step1Valid` | app/checkout/page.tsx:65-68 | a trimmed field is non-empty exactly when it holds a non-whitespace character, for each required field |
| `CheckoutPage.OptionalFieldsIrrelevant` | app/checkout/page.tsx:65-68 | phone and country never affect validity |
| `CheckoutPage.InitialFormInvalid` | app/checkout/page.tsx:40-50 | the empty starting form is invalid |
| `CheckoutPage.Checkout.constructor` | app/checkout/page.tsx:39-50 | step 1 with the starting form |
| `CheckoutPage.Checkout.HandleInputChange` | app/checkout/page.tsx:61-63 | the one field gets the value and every other field is kept |
| `CheckoutPage.Checkout.ContinueToPayment` | app/checkout/page.tsx:212 | the step becomes 2 exactly when the form is valid; the form is untouched |
| `CheckoutPage.Checkout.BackToShipping` | app/checkout/page.tsx:292 | back to step 1, form untouched |
| `CheckoutPage.CheckoutTotals` | app/checkout/page.tsx:19-36 | shipping is always free, the total is 108 % of the subtotal, and the mock cart totals $1457 + $116.56 = $1573.56 |
| `CheckoutPage.OrderTotals` | app/checkout/page.tsx:54-57 | shipping is always 0 and the total is 108 % of the subtotal |
| `ProductInfo.FirstAvailable` | components/product-info.tsx:32-33 | the name of the first available option (colour or size), or "" when none is available |
| `ProductInfo.CountFilledIsClamp` | components/product-info.tsx:45-52 | among the first n stars, `min(n, max(0, floor(rating)))` are filled |
| `ProductInfo.FilledStars` | components/product-info.tsx:45-52 | five stars with `floor(rating)` of them filled, clamped to 0..5: 4 for a 4.9 rating, none below 1 |
| `ProductInfo.CountFilled` | components/product-info.tsx:45-52 | no more than `n` of the first `n` stars are filled |
| `ProductInfo.SaveBadge` | components/product-info.tsx:77-81 | the badge shows exactly for a truthy original price, with the amount that brings the price up to it |
| `ProductInfo.ProductPanel.constructor` | components/product-info.tsx:32-35 | first available colour and size, quantity 1, not wishlisted |
| `ProductInfo.ProductPanel.ClickColor` | components/product-info.tsx:97-98 | an available colour is selected; an unavailable one changes nothing |
| `ProductInfo.ProductPanel.ClickSize` | components/product-info.tsx:122-123 | the same for sizes |
| `ProductInfo.ProductPanel.Decrement` | components/product-info.tsx:141 | `max(1, q - 1)`: never below 1, and within stock if it was |
| `ProductInfo.ProductPanel.Increment` | components/product-info.tsx:150 | `min(stock, q + 1)`: never above stock, and within `[1, stock]` if it was |
| `ProductInfo.ProductPanel.ClickMinus` | components/product-info.tsx:141-142 | disabled at 1; otherwise exactly one less; the invariant is kept |
| `ProductInfo.ProductPanel.ClickPlus` | components/product-info.tsx:150-151 | disabled at stock; otherwise exactly one more; the invariant is kept |
| `ProductInfo.ProductPanel.ToggleWishlist` | components/product-info.tsx:182 | the wishlist flag flips and nothing else changes |
| `DealOfTheDay.TickCountsDown` | components/deal-of-the-day.tsx:20-29 | a tick takes exactly one second off a running countdown and stops at 00:00:00 |
| `DealOfTheDay.Tick` | components/deal-of-the-day.tsx:20-29 | the hours never rise, and the state stays put exactly when no field is positive |
| `DealOfTheDay.TickFixedPoint` | components/deal-of-the-day.tsx:28 | 00:00:00 stays 00:00:00 |
| `DealOfTheDay.TickKeepsClockShape` | components/deal-of-the-day.tsx:20-29 | minutes and seconds stay in 0..59 and the hours never rise |
| `DealOfTheDay.TicksCountDown` | components/deal-of-the-day.tsx:18-30 | after k ticks the countdown shows `max(0, T - k)` seconds |
| `DealOfTheDay.TicksKeepClockShape` | components/deal-of-the-day.tsx:18-30 | any number of ticks keeps the clock shape and never raises the hours |
| `DealOfTheDay.InitialCountdownExpires` | components/deal-of-the-day.tsx:12-30 | from 23:45:30 the countdown reaches 00:00:00 after 85530 ticks and stays there |
| `DealOfTheDay.Countdown.constructor` | components/deal-of-the-day.tsx:12-16 | the countdown starts at 23:45:30 |
| `DealOfTheDay.Countdown.OnTimer` | components/deal-of-the-day.tsx:19-29 | one interval firing: the new state is the tick of the old, one second less or still zero |
| `DealOfTheDay.Countdown.Display` | components/deal-of-the-day.tsx:113-125 | each of the three boxes is exactly two characters wide |
| `DealOfTheDay.TwoDigitDisplay` | components/deal-of-the-day.tsx:113-125 | each value in 0..99 renders as its tens and units digit, and reads back as the value |
| `DealOfTheDay.DisplayInjective` | components/deal-of-the-day.tsx:113-125 | two different values in 0..99 never render the same |
| `DealOfTheDay.DealFigures` | components/deal-of-the-day.tsx:100-140 | for this deal the "Available" and "Only … left" figures are 73 and the badge says $100 |
| `CategoriesCarousel.MaxIndex` | components/categories-carousel.tsx:72 | 0 for up to four categories, otherwise the last start index at which the window is full |
| `CategoriesCarousel.DotCount` | components/categories-carousel.tsx:133 | one dot for every index the window can stand at, and no other; so at least one |
| `CategoriesCarousel.EightCategories` | components/categories-carousel.tsx:71-72 | eight categories give a largest index of 4 and five dots |
| `CategoriesCarousel.Carousel.constructor` | components/categories-carousel.tsx:70 | the window starts at index 0 |
| `CategoriesCarousel.Carousel.NextSlide` | components/categories-carousel.tsx:74-76 | one step right, clamped at `maxIndex`; a no-op exactly where the button is disabled |
| `CategoriesCarousel.Carousel.PrevSlide` | components/categories-carousel.tsx:78-80 | one step left, clamped at 0; a no-op exactly where the button is disabled |
| `CategoriesCarousel.Carousel.ClickDot` | components/categories-carousel.tsx:133-136 | a dot click moves to its index, which is in range |
| `RelatedProducts.RelatedCorrect` | components/related-products.tsx:14-16 | the first up-to-four other products of exactly the category, in catalog order |
| `RelatedProducts.Related` | components/related-products.tsx:14-16 | at most four products |
| `RelatedProducts.StripHiddenIffNoMatch` | components/related-products.tsx:18-20 | the strip renders nothing exactly when no other product of the category exists |
| `RelatedProducts.ViewAllSlugFirstSpaceOnly` | components/related-products.tsx:31 | the link lower-cases the category and turns only its first space into `-`; later spaces stay |
| `RelatedProducts.ViewAllSlug` | components/related-products.tsx:31 | the slug is as long as the category |
| `Text.ToLower` | app/cart/page.tsx:63 | same length, and each character lower-cased |
| `Text.Includes` | app/products/page.tsx:37 | `includes` holds exactly when the pattern occurs at some index |
| `Text.ReplaceFirst` | components/related-products.tsx:31 | only the first occurrence of the character is replaced |
| `Text.Trim` | app/checkout/page.tsx:67 | the result is empty exactly for a blank string, and otherwise starts and ends with non-whitespace |
| `MegaMenu.CollapseNoRun` | components/mega-menu.tsx:65 | the output of `replace(/c+/g, "-")`, for a class without `-`, holds no character of the class, and is never longer than the input |
| `MegaMenu.CollapseNoMatch` | components/mega-menu.tsx:65 | text without a character of the class is left unchanged |
| `MegaMenu.CollapseKeepsWords` | components/mega-menu.tsx:65 | apart from dashes the output keeps exactly the input's characters that are neither in the class nor dashes, in order |
| `MegaMenu.CollapseAppend` | components/mega-menu.tsx:65 | cutting the input just before a run, after a character outside the class, cuts the output at the same place |
| `MegaMenu.CollapseSplit` | components/mega-menu.tsx:65 | a maximal run between two stretches becomes exactly one `-` |
| `MegaMenu.SlugProperties` | components/mega-menu.tsx:65 | the slug has no whitespace, is no longer than the item, and keeps its other characters lower-cased and in order |
| `MegaMenu.Slug` | components/mega-menu.tsx:65 | the slug is no longer than the item (its characters are described by `SlugProperties`) |
| `MegaMenu.SlugOfTwoWords` | components/mega-menu.tsx:65 | two words separated by one space become the two lower-cased words joined by `-` |
| `MegaMenu.SamsungGalaxySlug` | components/mega-menu.tsx:18 | "Samsung Galaxy" links to subcategory `samsung-galaxy` |
| `MegaMenu.BabyEssentialsSlug` | components/mega-menu.tsx:43 | "Baby Essentials" links to subcategory `baby-essentials` |

## Left out

- The JSX rendering, CSS classes, icons, routing and links beyond the computed slugs, and the view-mode and collapsible-section toggles. None of them affects the modelled state.
- `mockProducts` comes from a module that is not part of this model. The catalog is a parameter of every listing function.
- Locale collation tables are not modelled. The name order is a parameter required to be a total preorder; no lemma depends on how a particular locale ranks case or accents.
- `Collation.NameTieIsCaseInsensitiveEquality`: describes the ties of the ASCII stand-in order only. A real `localeCompare` tells apart names that differ in case (`"apple"` and `"Apple"` do not compare as 0) and ranks accented letters beside their base letters, where the stand-in orders them by code point. The sort lemmas do not use this lemma.
- `toLowerCase` only lower-cases ASCII letters. Other scripts' case mappings are not modelled.
- `toFixed(2)` formatting and floating-point rounding are left out. Money is computed exactly with `real`.
- The `setInterval` timer and its cleanup are left out. One firing is the `OnTimer` method.
- The optional `onFiltersChange?.` callback: the panel's handlers return the record they would emit. The case of an absent callback is not modelled.
- `progressPercentage` in the deal and the carousel's `translateX` offset are presentation values computed with floating-point division.
- Delivery-date formatting and any use of the clock or randomness are left out.
- The checkout's `paymentMethod` and `sameAsBilling` state are left out. Neither affects validity or the totals.
- A `NaN` rating is left out. Ratings are exact reals, so the comparisons never meet `NaN`.
- A missing form field is left out. The checkout form always holds all nine fields, a `Valid()` invariant. A missing field would make `trim` throw in the source.
- The empty-cart and empty-mini-cart screens and the "item"/"items" wording are rendering only.
- The labels of the sort drop-down are not modelled; only its values are.
- `ProductsPage.ListingController.PaginatedProducts`: for a page number below 1 the contract states only the 12-item bound. The handlers never set such a page.
