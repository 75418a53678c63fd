/**
 * The full cart page: the `cartItems`, `promoCode` and `appliedPromo` state,
 * the handlers that change it (quantity update with a floor of 1, removal,
 * the SAVE10 promo code, the quantity buttons), and the order summary derived
 * from it (subtotal, savings, promo discount, shipping, tax, total and the
 * free-shipping hint). Money is exact: prices are whole dollars, the 10 %, 8 %
 * and $9.99 figures are `real`s.
 */
module CartPage {
  import opened Wrappers
  import opened Text
  import opened Seqs

  /** A cart line; `originalPrice` is optional, `image` is not modelled. */
  datatype CartLine = CartLine(
    id: string,
    name: string,
    price: int,
    originalPrice: Option<int>,
    quantity: int,
    variant: string,
    inStock: bool)

  /** The mock cart the page starts with. */
  const InitialCartItems: seq<CartLine> := [
    CartLine("1", "iPhone 15 Pro Max", 1199, Some(1299), 1, "256GB, Space Black", true),
    CartLine("2", "Nike Air Max 270", 129, Some(159), 2, "Size 10, Black/White", true),
    CartLine("3", "Sony WH-1000XM5", 349, None, 1, "Midnight Black", false)
  ]

  // ---------------------------------------------------------------------------
  // Line-list updates

  /** `item.id === id` */
  function HasId(id: string): CartLine -> bool {
    (l: CartLine) => l.id == id
  }

  /** `{ ...item, quantity: q }` */
  function WithQuantity(q: int): CartLine -> CartLine {
    (l: CartLine) => l.(quantity := q)
  }

  /** `items.map(item => item.id === id ? { ...item, quantity: q } : item)`: a line-for-line update. */
  function SetQuantity(items: seq<CartLine>, id: string, q: int): (r: seq<CartLine>)
    ensures |r| == |items|
  {
    MapWhere(items, HasId(id), WithQuantity(q))
  }

  /** `items.filter(item => item.id !== id)`: never more lines than before. */
  function RemoveId(items: seq<CartLine>, id: string): (r: seq<CartLine>)
    ensures |r| <= |items|
  {
    Filter(items, (l: CartLine) => l.id != id)
  }

  /**
   * Setting a quantity keeps the length and the order; every line keeps every
   * field but `quantity`, and only the lines with the given id get the new one.
   */
  lemma SetQuantityOnlyTouchesId(items: seq<CartLine>, id: string, q: int)
    ensures |SetQuantity(items, id, q)| == |items|
    ensures forall i :: 0 <= i < |items| ==>
      SetQuantity(items, id, q)[i].(quantity := items[i].quantity) == items[i]
    ensures forall i :: 0 <= i < |items| ==>
      SetQuantity(items, id, q)[i].quantity == if items[i].id == id then q else items[i].quantity
  {
    MapWhereCorrect(items, HasId(id), WithQuantity(q));
  }

  /** Apart from the updated lines, nothing changes: dropping them leaves the same cart either way. */
  lemma {:induction false} SetQuantityThenRemove(items: seq<CartLine>, id: string, q: int)
    ensures RemoveId(SetQuantity(items, id, q), id) == RemoveId(items, id)
  {
    if items != [] {
      SetQuantityThenRemove(items[1..], id, q);
      var head := if items[0].id == id then items[0].(quantity := q) else items[0];
      FilterCons(head, SetQuantity(items[1..], id, q), (l: CartLine) => l.id != id);
      assert items == [items[0]] + items[1..];
      FilterCons(items[0], items[1..], (l: CartLine) => l.id != id);
    }
  }

  /** Only the last of two quantity updates of the same id counts. */
  lemma {:induction false} SetQuantityLastWins(items: seq<CartLine>, id: string, q1: int, q2: int)
    ensures SetQuantity(SetQuantity(items, id, q1), id, q2) == SetQuantity(items, id, q2)
  {
    if items != [] {
      SetQuantityLastWins(items[1..], id, q1, q2);
      assert SetQuantity(items, id, q1)[1..] == SetQuantity(items[1..], id, q1);
    }
  }

  /**
   * Removal keeps the other lines in their order and drops exactly the lines
   * with the id; a cart without that id is left as it was.
   */
  lemma RemoveIdCorrect(items: seq<CartLine>, id: string)
    ensures IsSubsequence(RemoveId(items, id), items)
    ensures forall l :: l in RemoveId(items, id) <==> l in items && l.id != id
    ensures (forall i :: 0 <= i < |items| ==> items[i].id != id) ==> RemoveId(items, id) == items
  {
    var keep := (l: CartLine) => l.id != id;
    FilterIsSubsequence(items, keep);
    FilterMembers(items, keep);
    if forall i :: 0 <= i < |items| ==> items[i].id != id {
      FilterKeepsAll(items, keep);
    }
  }

  // ---------------------------------------------------------------------------
  // Order summary

  function LineTotal(l: CartLine): int {
    l.price * l.quantity
  }

  /** `item.originalPrice || item.price`: an absent or zero original price falls back to the price. */
  function ListPrice(l: CartLine): (r: int)
    ensures r == l.price || (l.originalPrice == Some(r) && r != 0)
    ensures r == 0 ==> l.price == 0
  {
    if l.originalPrice.Some? && l.originalPrice.value != 0 then l.originalPrice.value else l.price
  }

  function ListTotal(l: CartLine): int {
    ListPrice(l) * l.quantity
  }

  function Subtotal(items: seq<CartLine>): int {
    Sum(items, LineTotal)
  }

  function OriginalTotal(items: seq<CartLine>): int {
    Sum(items, ListTotal)
  }

  /** JavaScript truthiness of a `string | null`: `null` and `""` are falsy. */
  predicate PromoApplied(appliedPromo: Option<string>) {
    appliedPromo.Some? && appliedPromo.value != ""
  }

  datatype Summary = Summary(
    subtotal: int,
    originalTotal: int,
    savings: int,
    promoDiscount: real,
    shipping: real,
    tax: real,
    total: real)

  /** The derivations the summary card shows, in the order the page computes them. */
  function OrderSummary(items: seq<CartLine>, appliedPromo: Option<string>): (r: Summary)
    ensures r.savings == r.originalTotal - r.subtotal
    ensures r.shipping == 0.0 <==> r.subtotal > 50
    ensures r.total == (r.subtotal as real - r.promoDiscount) * 1.08 + r.shipping
  {
    var subtotal := Subtotal(items);
    var originalTotal := OriginalTotal(items);
    var savings := originalTotal - subtotal;
    var promoDiscount := if PromoApplied(appliedPromo) then subtotal as real * 0.1 else 0.0;
    var shipping := if subtotal > 50 then 0.0 else 9.99;
    var tax := (subtotal as real - promoDiscount) * 0.08;
    var total := subtotal as real - promoDiscount + shipping + tax;
    Summary(subtotal, originalTotal, savings, promoDiscount, shipping, tax, total)
  }

  /** The "Savings" row is rendered only when `savings > 0`. */
  predicate ShowsSavings(s: Summary) {
    s.savings > 0
  }

  /** "Add $… more for free shipping", rendered only when shipping is charged. */
  function FreeShippingHint(s: Summary): Option<real> {
    if s.shipping > 0.0 then Some(50.0 - s.subtotal as real) else None
  }

  /** Shipping is free exactly above $50 (strictly), $9.99 otherwise; the hint is shown exactly when it is charged, and is never negative. */
  lemma ShippingThreshold(items: seq<CartLine>, appliedPromo: Option<string>)
    ensures OrderSummary(items, appliedPromo).shipping == 0.0 <==> Subtotal(items) > 50
    ensures Subtotal(items) <= 50 ==> OrderSummary(items, appliedPromo).shipping == 9.99
    ensures FreeShippingHint(OrderSummary(items, appliedPromo)).Some? <==> Subtotal(items) <= 50
    ensures FreeShippingHint(OrderSummary(items, appliedPromo)).Some? ==>
      FreeShippingHint(OrderSummary(items, appliedPromo)).value >= 0.0
  {
  }

  /** The total is 108 % of the discounted subtotal plus shipping; SAVE10 makes it 97.2 % of the subtotal plus shipping. */
  lemma TotalClosedForm(items: seq<CartLine>, appliedPromo: Option<string>)
    ensures var s := OrderSummary(items, appliedPromo);
      s.total == (s.subtotal as real - s.promoDiscount) * 1.08 + s.shipping
    ensures var s := OrderSummary(items, appliedPromo);
      PromoApplied(appliedPromo) ==> s.total == s.subtotal as real * 0.972 + s.shipping
    ensures var s := OrderSummary(items, appliedPromo);
      !PromoApplied(appliedPromo) ==> s.promoDiscount == 0.0 && s.total == s.subtotal as real * 1.08 + s.shipping
  {
  }

  /** On a cart worth something, applying the promo never raises the total. */
  lemma PromoNeverRaisesTotal(items: seq<CartLine>, code: string)
    requires Subtotal(items) >= 0
    ensures OrderSummary(items, Some(code)).total <= OrderSummary(items, None).total
  {
  }

  /** When no line's original price is below its price and quantities are non-negative, savings are never negative. */
  lemma SavingsNonNegative(items: seq<CartLine>)
    requires forall i :: 0 <= i < |items| ==> items[i].quantity >= 0 && ListPrice(items[i]) >= items[i].price
    ensures OrderSummary(items, None).savings >= 0
  {
    forall i | 0 <= i < |items| ensures LineTotal(items[i]) <= ListTotal(items[i]) {
      var l := items[i];
      assert ListTotal(l) - LineTotal(l) == (ListPrice(l) - l.price) * l.quantity;
    }
    SumMonotone(items, LineTotal, ListTotal);
  }

  /** Without any truthy original price there is nothing to save, so the savings row stays hidden. */
  lemma NoOriginalPricesNoSavings(items: seq<CartLine>, appliedPromo: Option<string>)
    requires forall i :: 0 <= i < |items| ==> ListPrice(items[i]) == items[i].price
    ensures OrderSummary(items, appliedPromo).savings == 0
    ensures !ShowsSavings(OrderSummary(items, appliedPromo))
  {
    forall i | 0 <= i < |items| ensures LineTotal(items[i]) == ListTotal(items[i]) {
    }
    SumMonotone(items, LineTotal, ListTotal);
    SumMonotone(items, ListTotal, LineTotal);
  }

  /** The subtotal splits into the lines with an id and the rest; removing them takes exactly their share off. */
  lemma SubtotalAfterRemove(items: seq<CartLine>, id: string)
    ensures Subtotal(items) == Subtotal(RemoveId(items, id)) + Subtotal(Filter(items, (l: CartLine) => l.id == id))
  {
    SumPartition(items, LineTotal, (l: CartLine) => l.id != id, (l: CartLine) => l.id == id);
  }

  /** Changing one id's quantity moves the subtotal by that line's price times the change. */
  lemma {:induction false} SubtotalAfterSetQuantity(items: seq<CartLine>, id: string, q: int)
    ensures Subtotal(SetQuantity(items, id, q))
      == Subtotal(items) + Sum(Filter(items, (l: CartLine) => l.id == id), (l: CartLine) => l.price * (q - l.quantity))
  {
    var same := (l: CartLine) => l.id == id;
    var delta := (l: CartLine) => l.price * (q - l.quantity);
    if items != [] {
      SubtotalAfterSetQuantity(items[1..], id, q);
      var h := items[0];
      assert items == [h] + items[1..];
      FilterCons(h, items[1..], same);
      var rest := Filter(items[1..], same);
      if h.id == id {
        assert ([h] + rest)[1..] == rest;
        assert h.price * (q - h.quantity) == h.price * q - h.price * h.quantity;
      }
    }
  }

  /** The mock cart: $1806 subtotal, $160 savings, free shipping. */
  lemma InitialCartSummary()
    ensures OrderSummary(InitialCartItems, None) == Summary(1806, 1966, 160, 0.0, 0.0, 144.48, 1950.48)
    ensures OrderSummary(InitialCartItems, Some("SAVE10")).total == 1755.432
  {
    var s := InitialCartItems;
    assert s[1..][1..][1..] == [];
  }

  // ---------------------------------------------------------------------------
  // Quantity buttons

  /** `disabled={item.quantity <= 1 || !item.inStock}` */
  predicate MinusDisabled(l: CartLine) {
    l.quantity <= 1 || !l.inStock
  }

  /** `disabled={!item.inStock}` */
  predicate PlusDisabled(l: CartLine) {
    !l.inStock
  }

  /** The cart page state. */
  class Cart {
    var cartItems: seq<CartLine>
    var promoCode: string
    var appliedPromo: Option<string>

    /** Every quantity the page can reach is at least 1. */
    ghost predicate Valid()
      reads this
    {
      forall i :: 0 <= i < |cartItems| ==> cartItems[i].quantity >= 1
    }

    constructor()
      ensures Valid()
      ensures cartItems == InitialCartItems && promoCode == "" && appliedPromo == None
    {
      cartItems := InitialCartItems;
      promoCode := "";
      appliedPromo := None;
    }

    /** `updateQuantity`: a quantity below 1 is ignored; otherwise every line with the id gets it. */
    method UpdateQuantity(id: string, newQuantity: int)
      requires Valid()
      modifies this
      ensures Valid()
      ensures cartItems == if newQuantity < 1 then old(cartItems) else SetQuantity(old(cartItems), id, newQuantity)
      ensures promoCode == old(promoCode) && appliedPromo == old(appliedPromo)
    {
      if newQuantity < 1 {
        return;
      }
      SetQuantityOnlyTouchesId(cartItems, id, newQuantity);
      cartItems := SetQuantity(cartItems, id, newQuantity);
    }

    /** `removeItem` */
    method RemoveItem(id: string)
      requires Valid()
      modifies this
      ensures Valid()
      ensures cartItems == RemoveId(old(cartItems), id)
      ensures promoCode == old(promoCode) && appliedPromo == old(appliedPromo)
    {
      FilterMembers(cartItems, (l: CartLine) => l.id != id);
      cartItems := RemoveId(cartItems, id);
    }

    /** The promo input's `onChange`. */
    method SetPromoCode(value: string)
      modifies this
      ensures promoCode == value
      ensures cartItems == old(cartItems) && appliedPromo == old(appliedPromo)
    {
      promoCode := value;
    }

    /** `applyPromoCode`: "save10" in any letter case applies SAVE10 and clears the input; anything else is ignored. */
    method ApplyPromoCode()
      modifies this
      ensures ToLower(old(promoCode)) == "save10" ==> appliedPromo == Some("SAVE10") && promoCode == ""
      ensures ToLower(old(promoCode)) != "save10" ==> appliedPromo == old(appliedPromo) && promoCode == old(promoCode)
      ensures cartItems == old(cartItems)
    {
      if ToLower(promoCode) == "save10" {
        appliedPromo := Some("SAVE10");
        promoCode := "";
      }
    }

    /** The minus button of line `i`: when enabled, it asks for one less. */
    method ClickMinus(i: nat)
      requires Valid() && i < |cartItems|
      modifies this
      ensures Valid()
      ensures cartItems == if MinusDisabled(old(cartItems)[i]) then old(cartItems)
        else SetQuantity(old(cartItems), old(cartItems)[i].id, old(cartItems)[i].quantity - 1)
      ensures promoCode == old(promoCode) && appliedPromo == old(appliedPromo)
    {
      var line := cartItems[i];
      if !MinusDisabled(line) {
        UpdateQuantity(line.id, line.quantity - 1);
      }
    }

    /** The plus button of line `i`: when enabled, it asks for one more. */
    method ClickPlus(i: nat)
      requires Valid() && i < |cartItems|
      modifies this
      ensures Valid()
      ensures cartItems == if PlusDisabled(old(cartItems)[i]) then old(cartItems)
        else SetQuantity(old(cartItems), old(cartItems)[i].id, old(cartItems)[i].quantity + 1)
      ensures promoCode == old(promoCode) && appliedPromo == old(appliedPromo)
    {
      var line := cartItems[i];
      if !PlusDisabled(line) {
        UpdateQuantity(line.id, line.quantity + 1);
      }
    }
  }
}
