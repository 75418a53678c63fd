/**
 * The header's mini cart: its own `cartItems` state, where a quantity update
 * to 0 removes the line and no other quantity is refused, the line removal,
 * and the subtotal, savings and total it shows.
 */
module MiniCart {
  import opened Seqs

  /** A mini-cart line: numeric id, and an original price every line has. */
  datatype MiniLine = MiniLine(id: int, name: string, price: int, originalPrice: int, quantity: int, variant: string)

  /** The mock cart the sheet starts with. */
  const MockCartItems: seq<MiniLine> := [
    MiniLine(1, "iPhone 15 Pro Max", 1199, 1299, 1, "256GB, Natural Titanium"),
    MiniLine(2, "Nike Air Max 270", 150, 180, 2, "Size 10, Black/White"),
    MiniLine(3, "MacBook Air M3", 1099, 1199, 1, "13-inch, 256GB, Midnight")
  ]

  /** `item.id === id` */
  function HasId(id: int): MiniLine -> bool {
    (l: MiniLine) => l.id == id
  }

  /** `{ ...item, quantity: q }` */
  function WithQuantity(q: int): MiniLine -> MiniLine {
    (l: MiniLine) => l.(quantity := q)
  }

  /**
   * `items.map(item => item.id === id ? { ...item, quantity: q } : item)`: every line keeps all
   * fields but `quantity`, and exactly the lines with the id get `q`, whatever its sign.
   */
  function SetQuantity(items: seq<MiniLine>, id: int, q: int): (r: seq<MiniLine>)
    ensures |r| == |items|
    ensures forall i :: 0 <= i < |items| ==> r[i].(quantity := items[i].quantity) == items[i]
    ensures forall i :: 0 <= i < |items| ==> r[i].quantity == if items[i].id == id then q else items[i].quantity
  {
    MapWhereCorrect(items, HasId(id), WithQuantity(q));
    MapWhere(items, HasId(id), WithQuantity(q))
  }

  /** `items.filter(item => item.id !== id)`: never more lines than before. */
  function RemoveId(items: seq<MiniLine>, id: int): (r: seq<MiniLine>)
    ensures |r| <= |items|
  {
    Filter(items, (l: MiniLine) => l.id != id)
  }

  /** Removal drops exactly the lines with the id and keeps the others in their order. */
  lemma RemoveIdCorrect(items: seq<MiniLine>, id: int)
    ensures IsSubsequence(RemoveId(items, id), items)
    ensures forall l :: l in RemoveId(items, id) <==> l in items && l.id != id
  {
    FilterIsSubsequence(items, (l: MiniLine) => l.id != id);
    FilterMembers(items, (l: MiniLine) => l.id != id);
  }

  function LineTotal(l: MiniLine): int {
    l.price * l.quantity
  }

  function ListTotal(l: MiniLine): int {
    l.originalPrice * l.quantity
  }

  function Subtotal(items: seq<MiniLine>): int {
    Sum(items, LineTotal)
  }

  function OriginalTotal(items: seq<MiniLine>): int {
    Sum(items, ListTotal)
  }

  function Savings(items: seq<MiniLine>): int {
    OriginalTotal(items) - Subtotal(items)
  }

  /** The "Total" line prints `subtotal` again: no shipping, tax or promo in the mini cart. */
  function DisplayedTotal(items: seq<MiniLine>): int {
    Subtotal(items)
  }

  /** "You save" is rendered only when `savings > 0`. */
  predicate ShowsSavings(items: seq<MiniLine>) {
    Savings(items) > 0
  }

  /** One line's markdown times its quantity. */
  function LineSaving(l: MiniLine): int {
    (l.originalPrice - l.price) * l.quantity
  }

  /** The savings are the sum of each line's markdown times its quantity. */
  lemma {:induction false} SavingsPerLine(items: seq<MiniLine>)
    ensures Savings(items) == Sum(items, LineSaving)
  {
    if items != [] {
      SavingsPerLine(items[1..]);
      var l := items[0];
      assert LineSaving(l) == ListTotal(l) - LineTotal(l);
    }
  }

  /** With every original price at least the price and non-negative quantities, savings are non-negative; a strict markdown on a line with positive quantity makes them shown. */
  lemma SavingsShownOnMarkdown(items: seq<MiniLine>)
    requires forall i :: 0 <= i < |items| ==> items[i].quantity >= 0 && items[i].originalPrice >= items[i].price
    ensures Savings(items) >= 0
    ensures (exists i :: 0 <= i < |items| && items[i].quantity > 0 && items[i].originalPrice > items[i].price)
      ==> ShowsSavings(items)
  {
    SavingsPerLine(items);
    forall i | 0 <= i < |items| ensures LineSaving(items[i]) >= 0 {
      MarkdownSign(items[i]);
    }
    if exists i :: 0 <= i < |items| && items[i].quantity > 0 && items[i].originalPrice > items[i].price {
      var i :| 0 <= i < |items| && items[i].quantity > 0 && items[i].originalPrice > items[i].price;
      MarkdownSign(items[i]);
      SavingSumPositive(items, i);
    } else {
      SavingSumNonNegative(items);
    }
  }

  /** A line with no mark-up and a non-negative quantity saves something non-negative, and something positive on a real markdown. */
  lemma MarkdownSign(l: MiniLine)
    requires l.quantity >= 0 && l.originalPrice >= l.price
    ensures LineSaving(l) >= 0
    ensures l.quantity > 0 && l.originalPrice > l.price ==> LineSaving(l) > 0
  {
    var d := l.originalPrice - l.price;
    assert LineSaving(l) == d * l.quantity;
    if l.quantity > 0 && d > 0 {
      assert d * l.quantity >= d;
    }
  }

  /** Non-negative line savings add up to a non-negative amount. */
  lemma {:induction false} SavingSumNonNegative(items: seq<MiniLine>)
    requires forall i :: 0 <= i < |items| ==> LineSaving(items[i]) >= 0
    ensures Sum(items, LineSaving) >= 0
  {
    if items != [] {
      SavingSumNonNegative(items[1..]);
    }
  }

  /** Non-negative line savings with one positive add up to a positive amount. */
  lemma {:induction false} SavingSumPositive(items: seq<MiniLine>, k: nat)
    requires forall i :: 0 <= i < |items| ==> LineSaving(items[i]) >= 0
    requires k < |items| && LineSaving(items[k]) > 0
    ensures Sum(items, LineSaving) > 0
  {
    if k == 0 {
      SavingSumNonNegative(items[1..]);
    } else {
      SavingSumPositive(items[1..], k - 1);
    }
  }

  /** The mock cart: $2598 subtotal and total, $260 saved. */
  lemma MockCartSummary()
    ensures Subtotal(MockCartItems) == 2598 && DisplayedTotal(MockCartItems) == 2598
    ensures Savings(MockCartItems) == 260 && ShowsSavings(MockCartItems)
  {
    var s := MockCartItems;
    assert s[1..][1..][1..] == [];
  }

  class MiniCartSheet {
    var cartItems: seq<MiniLine>

    /** Quantities that the +/- buttons reach stay positive. */
    ghost predicate Valid()
      reads this
    {
      forall i :: 0 <= i < |cartItems| ==> cartItems[i].quantity >= 1
    }

    constructor()
      ensures Valid() && cartItems == MockCartItems
    {
      cartItems := MockCartItems;
    }

    /** "Shopping Cart (n)": the number of lines, not of units. */
    function HeaderCount(): nat
      reads this
    {
      |cartItems|
    }

    /** `updateQuantity`: 0 removes the id's lines, any other value (negative included) is stored. */
    method UpdateQuantity(id: int, newQuantity: int)
      modifies this
      ensures cartItems == if newQuantity == 0 then RemoveId(old(cartItems), id) else SetQuantity(old(cartItems), id, newQuantity)
      ensures newQuantity == 0 ==> forall l :: l in cartItems <==> l in old(cartItems) && l.id != id
      ensures newQuantity == 0 ==> HeaderCount() <= old(HeaderCount())
      ensures newQuantity != 0 ==> HeaderCount() == old(HeaderCount())
    {
      if newQuantity == 0 {
        RemoveIdCorrect(cartItems, id);
        cartItems := RemoveId(cartItems, id);
      } else {
        cartItems := SetQuantity(cartItems, id, newQuantity);
      }
    }

    /** `removeItem`: the same state as an update to 0. */
    method RemoveItem(id: int)
      modifies this
      ensures cartItems == RemoveId(old(cartItems), id)
      ensures IsSubsequence(cartItems, old(cartItems))
    {
      RemoveIdCorrect(cartItems, id);
      cartItems := RemoveId(cartItems, id);
    }

    /** The minus button of line `i`: one less, so a line at 1 disappears. */
    method ClickMinus(i: nat)
      requires Valid() && i < |cartItems|
      modifies this
      ensures Valid()
      ensures old(cartItems)[i].quantity == 1 ==> cartItems == RemoveId(old(cartItems), old(cartItems)[i].id)
      ensures old(cartItems)[i].quantity > 1 ==>
        cartItems == SetQuantity(old(cartItems), old(cartItems)[i].id, old(cartItems)[i].quantity - 1)
    {
      var line := cartItems[i];
      FilterMembers(cartItems, (l: MiniLine) => l.id != line.id);
      UpdateQuantity(line.id, line.quantity - 1);
    }

    /** The plus button of line `i`: one more. */
    method ClickPlus(i: nat)
      requires Valid() && i < |cartItems|
      modifies this
      ensures Valid()
      ensures cartItems == SetQuantity(old(cartItems), old(cartItems)[i].id, old(cartItems)[i].quantity + 1)
    {
      var line := cartItems[i];
      UpdateQuantity(line.id, line.quantity + 1);
    }
  }
}
