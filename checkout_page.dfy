/**
 * The checkout page: the shipping form state, its one input handler, the
 * step-1 validity check that gates the move to the payment step, the two step
 * transitions, and the order totals of the mock cart (free shipping, 8 % tax).
 */
module CheckoutPage {
  import opened Text
  import opened Seqs

  /** The fields step 1 insists on; `phone` and `country` are not among them. */
  const RequiredFields: seq<string> := ["firstName", "lastName", "email", "address", "city", "state", "zipCode"]

  /** The form starts empty, apart from the country. */
  const InitialShippingInfo: map<string, string> := map[
    "firstName" := "", "lastName" := "", "email" := "", "phone" := "", "address" := "",
    "city" := "", "state" := "", "zipCode" := "", "country" := "United States"]

  /** Each of the nine form fields has a value; reading a missing one would call `trim` on `undefined`. */
  predicate HasAllFields(info: map<string, string>) {
    && "firstName" in info && "lastName" in info && "email" in info && "phone" in info && "address" in info
    && "city" in info && "state" in info && "zipCode" in info && "country" in info
  }

  lemma RequiredAreFields(info: map<string, string>)
    requires HasAllFields(info)
    ensures forall i :: 0 <= i < |RequiredFields| ==> RequiredFields[i] in info
  {
  }

  /** `isStep1Valid`: every required field is non-empty after `trim`, that is, holds a non-whitespace character. */
  predicate Step1Valid(info: map<string, string>): (r: bool)
    requires HasAllFields(info)
    ensures r <==> forall i :: 0 <= i < |RequiredFields| ==> RequiredFields[i] in info && !IsBlank(info[RequiredFields[i]])
  {
    RequiredAreFields(info);
    forall i :: 0 <= i < |RequiredFields| ==> Trim(info[RequiredFields[i]]) != ""
  }

  /** Step 1 is valid exactly when each of the seven required fields holds a non-whitespace character. */
  lemma Step1ValidIff(info: map<string, string>)
    requires HasAllFields(info)
    ensures Step1Valid(info) <==>
      && !IsBlank(info["firstName"]) && !IsBlank(info["lastName"]) && !IsBlank(info["email"])
      && !IsBlank(info["address"]) && !IsBlank(info["city"]) && !IsBlank(info["state"])
      && !IsBlank(info["zipCode"])
  {
    RequiredAreFields(info);
    assert RequiredFields[0] == "firstName" && RequiredFields[1] == "lastName" && RequiredFields[2] == "email";
    assert RequiredFields[3] == "address" && RequiredFields[4] == "city" && RequiredFields[5] == "state";
    assert RequiredFields[6] == "zipCode";
    if !Step1Valid(info) {
      var i :| 0 <= i < |RequiredFields| && Trim(info[RequiredFields[i]]) == "";
      assert i == 0 || i == 1 || i == 2 || i == 3 || i == 4 || i == 5 || i == 6;
    }
  }

  /** Neither the phone number nor the country affects validity. */
  lemma OptionalFieldsIrrelevant(info: map<string, string>, field: string, value: string)
    requires HasAllFields(info)
    requires field == "phone" || field == "country"
    ensures HasAllFields(info[field := value]) && Step1Valid(info[field := value]) == Step1Valid(info)
  {
    RequiredAreFields(info);
    RequiredAreFields(info[field := value]);
    forall i | 0 <= i < |RequiredFields| ensures info[field := value][RequiredFields[i]] == info[RequiredFields[i]] {
      assert RequiredFields[i] != field;
    }
  }

  /** The empty form does not pass. */
  lemma InitialFormInvalid()
    ensures HasAllFields(InitialShippingInfo) && !Step1Valid(InitialShippingInfo)
  {
    var info := InitialShippingInfo;
    assert info["firstName"] == "";
    Step1ValidIff(info);
  }

  class Checkout {
    var currentStep: int
    var shippingInfo: map<string, string>

    /** The page shows step 1 (shipping) or step 2 (payment), and the form keeps all its fields. */
    ghost predicate Valid()
      reads this
    {
      (currentStep == 1 || currentStep == 2) && HasAllFields(shippingInfo)
    }

    constructor()
      ensures Valid() && currentStep == 1 && shippingInfo == InitialShippingInfo
    {
      currentStep := 1;
      shippingInfo := InitialShippingInfo;
    }

    /** `handleInputChange`: `{ ...prev, [field]: value }`, every other field as it was. */
    method HandleInputChange(field: string, value: string)
      requires Valid()
      modifies this
      ensures Valid()
      ensures shippingInfo == old(shippingInfo)[field := value]
      ensures forall f :: f in old(shippingInfo) && f != field ==> f in shippingInfo && shippingInfo[f] == old(shippingInfo)[f]
      ensures currentStep == old(currentStep)
    {
      shippingInfo := shippingInfo[field := value];
    }

    /** The step-1 button, disabled unless the form is valid: it moves to step 2 only from a valid form. */
    method ContinueToPayment()
      requires Valid() && currentStep == 1
      modifies this
      ensures Valid()
      ensures currentStep == 2 <==> Step1Valid(shippingInfo)
      ensures shippingInfo == old(shippingInfo)
    {
      if Step1Valid(shippingInfo) {
        currentStep := 2;
      }
    }

    /** The step-2 "Back" button: back to step 1, form untouched. */
    method BackToShipping()
      requires Valid() && currentStep == 2
      modifies this
      ensures Valid()
      ensures currentStep == 1 && shippingInfo == old(shippingInfo)
    {
      currentStep := 1;
    }
  }

  // ---------------------------------------------------------------------------
  // Order totals

  datatype CheckoutItem = CheckoutItem(id: string, name: string, price: int, quantity: int, variant: string)

  /** The mock cart the page totals. */
  const CartItems: seq<CheckoutItem> := [
    CheckoutItem("1", "iPhone 15 Pro Max", 1199, 1, "256GB, Space Black"),
    CheckoutItem("2", "Nike Air Max 270", 129, 2, "Size 10, Black/White")
  ]

  function LineTotal(item: CheckoutItem): int {
    item.price * item.quantity
  }

  datatype Totals = Totals(subtotal: int, shipping: real, tax: real, total: real)

  /** Subtotal, free shipping, 8 % tax on the subtotal, and their sum: 108 % of the subtotal. */
  function OrderTotals(items: seq<CheckoutItem>): (r: Totals)
    ensures r.shipping == 0.0
    ensures r.total == r.subtotal as real * 1.08
  {
    var subtotal := Sum(items, LineTotal);
    var shipping := 0.0;
    var tax := subtotal as real * 0.08;
    Totals(subtotal, shipping, tax, subtotal as real + shipping + tax)
  }

  /** Shipping is always free, so the total is 108 % of the subtotal; the mock cart comes to $1457 plus $116.56 tax. */
  lemma CheckoutTotals(items: seq<CheckoutItem>)
    ensures OrderTotals(items).shipping == 0.0
    ensures OrderTotals(items).total == OrderTotals(items).subtotal as real * 1.08
    ensures OrderTotals(CartItems) == Totals(1457, 0.0, 116.56, 1573.56)
  {
    assert CartItems[1..][1..] == [];
  }
}
