/**
 * The product-detail panel: the initial colour and size choice, the colour
 * and size buttons that ignore unavailable variants, the quantity stepper
 * clamped to `[1, stockCount]`, the wishlist toggle, the star row and the
 * "Save" badge.
 */
module ProductInfo {
  import opened Wrappers
  import opened Numbers

  datatype ColorOption = ColorOption(name: string, value: string, available: bool)

  datatype SizeOption = SizeOption(name: string, available: bool)

  /** The fields of the product prop that the panel's logic reads. */
  datatype ProductDetail = ProductDetail(
    id: string,
    name: string,
    price: int,
    originalPrice: Option<int>,
    rating: real,
    stockCount: int,
    colors: seq<ColorOption>,
    sizes: seq<SizeOption>)

  // ---------------------------------------------------------------------------
  // Initial selection

  /**
   * `options.find(o => o.available)?.name || ""`: the name of the first available
   * option, or "" when none is available.
   */
  function FirstAvailable<T>(options: seq<T>, available: T -> bool, name: T -> string): (r: string)
    ensures (forall i :: 0 <= i < |options| ==> !available(options[i])) ==> r == ""
    ensures (exists i :: 0 <= i < |options| && available(options[i])) ==>
      exists i :: 0 <= i < |options| && available(options[i]) && r == name(options[i])
        && forall j :: 0 <= j < i ==> !available(options[j])
  {
    if options == [] then ""
    else if available(options[0]) then name(options[0])
    else
      var r := FirstAvailable(options[1..], available, name);
      assert forall i :: 1 <= i < |options| ==> options[i] == options[1..][i - 1];
      if exists i :: 0 <= i < |options| && available(options[i]) then
        var i :| 0 <= i < |options[1..]| && available(options[1..][i]) && r == name(options[1..][i])
          && forall j :: 0 <= j < i ==> !available(options[1..][j]);
        assert available(options[i + 1]) && r == name(options[i + 1]) && forall j :: 0 <= j < i + 1 ==> !available(options[j]);
        r
      else
        r
  }

  function ColorAvailable(c: ColorOption): bool { c.available }

  function ColorName(c: ColorOption): string { c.name }

  function SizeAvailable(s: SizeOption): bool { s.available }

  function SizeName(s: SizeOption): string { s.name }

  // ---------------------------------------------------------------------------
  // Stars and price badge

  /** Star `i` (0..4) is filled when `i < Math.floor(rating)`. */
  function StarFilled(rating: real, i: int): bool {
    i < rating.Floor
  }

  /** How many of the first `n` stars are filled: never more than `n`. */
  function CountFilled(rating: real, n: nat): (r: nat)
    ensures r <= n
  {
    if n == 0 then 0 else CountFilled(rating, n - 1) + (if StarFilled(rating, n - 1) then 1 else 0)
  }

  /** The filled stars among the first `n` are the first `min(n, max(0, floor(rating)))`. */
  lemma {:induction false} CountFilledIsClamp(rating: real, n: nat)
    ensures CountFilled(rating, n) == Min(n, Max(0, rating.Floor))
  {
    if n > 0 {
      CountFilledIsClamp(rating, n - 1);
    }
  }

  /** `renderStars` fills `min(5, max(0, floor(rating)))` of its five stars: 4 for a 4.9 rating, none below 1. */
  lemma FilledStars(rating: real)
    ensures CountFilled(rating, 5) == Min(5, Max(0, rating.Floor))
    ensures CountFilled(4.9, 5) == 4 && CountFilled(5.0, 5) == 5
    ensures rating < 1.0 ==> CountFilled(rating, 5) == 0
  {
    CountFilledIsClamp(rating, 5);
    CountFilledIsClamp(4.9, 5);
    CountFilledIsClamp(5.0, 5);
  }

  /** The "Save $…" badge, rendered when `originalPrice` is truthy (present and non-zero). */
  function SaveBadge(p: ProductDetail): (r: Option<int>)
    ensures r.Some? <==> p.originalPrice.Some? && p.originalPrice.value != 0
    ensures r.Some? ==> r.value + p.price == p.originalPrice.value
  {
    if p.originalPrice.Some? && p.originalPrice.value != 0 then Some(p.originalPrice.value - p.price) else None
  }

  // ---------------------------------------------------------------------------
  // The panel's state

  class ProductPanel {
    const product: ProductDetail
    var selectedColor: string
    var selectedSize: string
    var quantity: int
    var isWishlisted: bool

    /** What the buttons can reach: at least 1, and within stock unless it is the starting 1. */
    ghost predicate Valid()
      reads this
    {
      quantity >= 1 && (quantity == 1 || quantity <= product.stockCount)
    }

    constructor(product: ProductDetail)
      ensures this.product == product && Valid()
      ensures selectedColor == FirstAvailable(product.colors, ColorAvailable, ColorName)
      ensures selectedSize == FirstAvailable(product.sizes, SizeAvailable, SizeName)
      ensures quantity == 1 && !isWishlisted
    {
      this.product := product;
      selectedColor := FirstAvailable(product.colors, ColorAvailable, ColorName);
      selectedSize := FirstAvailable(product.sizes, SizeAvailable, SizeName);
      quantity := 1;
      isWishlisted := false;
    }

    /** Colour swatch `i`: `color.available && setSelectedColor(color.name)`. */
    method ClickColor(i: nat)
      requires i < |product.colors|
      modifies this
      ensures selectedColor == if product.colors[i].available then product.colors[i].name else old(selectedColor)
      ensures selectedSize == old(selectedSize) && quantity == old(quantity) && isWishlisted == old(isWishlisted)
    {
      var color := product.colors[i];
      if color.available {
        selectedColor := color.name;
      }
    }

    /** Size button `i`: `size.available && setSelectedSize(size.name)`. */
    method ClickSize(i: nat)
      requires i < |product.sizes|
      modifies this
      ensures selectedSize == if product.sizes[i].available then product.sizes[i].name else old(selectedSize)
      ensures selectedColor == old(selectedColor) && quantity == old(quantity) && isWishlisted == old(isWishlisted)
    {
      var size := product.sizes[i];
      if size.available {
        selectedSize := size.name;
      }
    }

    /** The minus button's handler: `Math.max(1, quantity - 1)`. */
    method Decrement()
      modifies this
      ensures quantity == Max(1, old(quantity) - 1)
      ensures quantity >= 1
      ensures 1 <= old(quantity) <= product.stockCount ==> 1 <= quantity <= product.stockCount
      ensures selectedColor == old(selectedColor) && selectedSize == old(selectedSize) && isWishlisted == old(isWishlisted)
    {
      quantity := Max(1, quantity - 1);
    }

    /** The plus button's handler: `Math.min(stockCount, quantity + 1)`. */
    method Increment()
      modifies this
      ensures quantity == Min(product.stockCount, old(quantity) + 1)
      ensures quantity <= product.stockCount
      ensures 1 <= old(quantity) <= product.stockCount ==> 1 <= quantity <= product.stockCount
      ensures selectedColor == old(selectedColor) && selectedSize == old(selectedSize) && isWishlisted == old(isWishlisted)
    {
      quantity := Min(product.stockCount, quantity + 1);
    }

    /** The minus button, disabled at `quantity <= 1`: when enabled it takes exactly one off. */
    method ClickMinus()
      requires Valid()
      modifies this
      ensures Valid()
      ensures quantity == if old(quantity) <= 1 then old(quantity) else old(quantity) - 1
      ensures selectedColor == old(selectedColor) && selectedSize == old(selectedSize) && isWishlisted == old(isWishlisted)
    {
      if !(quantity <= 1) {
        Decrement();
      }
    }

    /** The plus button, disabled at `quantity >= stockCount`: when enabled it adds exactly one. */
    method ClickPlus()
      requires Valid()
      modifies this
      ensures Valid()
      ensures quantity == if old(quantity) >= product.stockCount then old(quantity) else old(quantity) + 1
      ensures selectedColor == old(selectedColor) && selectedSize == old(selectedSize) && isWishlisted == old(isWishlisted)
    {
      if !(quantity >= product.stockCount) {
        Increment();
      }
    }

    /** The heart button: `setIsWishlisted(!isWishlisted)`. */
    method ToggleWishlist()
      modifies this
      ensures isWishlisted == !old(isWishlisted)
      ensures selectedColor == old(selectedColor) && selectedSize == old(selectedSize) && quantity == old(quantity)
    {
      isWishlisted := !isWishlisted;
    }
  }
}
