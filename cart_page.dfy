/** The cart page of components/features/cart/Cart.tsx: the lines of the
    cart store with +/- buttons, the money rows, the promo and bonus-card
    fields, and the way to checkout. Amounts are in cents. */
module CartPage {
  import opened Types
  import opened Strings
  import opened CartContext
  import OrderSummary

  /** The flat tax of $50 and the flat shipping of $29 the page adds. */
  const TaxRate := 5000
  const Shipping := 2900

  /** `subtotal + TAX_RATE + SHIPPING`. */
  function PageTotal(items: seq<CartItem>): int
  {
    CartTotal(items) + TaxRate + Shipping
  }

  /** The cart page and the checkout summary charge the same tax on the same
      subtotal but different shipping: the cart page's total is always the
      higher, by $29 less the checkout's shipping charge. */
  lemma CartTotalAboveCheckoutTotal(items: seq<CartItem>, shipping: string)
    ensures PageTotal(items) - OrderSummary.Total(items, shipping) == Shipping - OrderSummary.ShippingCost(shipping)
    ensures PageTotal(items) > OrderSummary.Total(items, shipping)
  {
  }

  /** The lines after pressing + or - on the line of `id`: its quantity moves
      by `delta` (a result below 1 removes it); an id not in the cart
      changes nothing. */
  function QuantityStepped(items: seq<CartItem>, id: Id, delta: int): seq<CartItem>
  {
    match Find(items, id)
    case Some(line) => Updated(items, id, line.quantity + delta)
    case None => items
  }

  /** A press keeps one line per id with quantities of at least 1, moves
      the pressed line's quantity by `delta`, and removes the line when the
      quantity would drop below 1. */
  lemma QuantityStepSpec(items: seq<CartItem>, id: Id, delta: int)
    requires Inv(items)
    ensures Inv(QuantityStepped(items, id, delta))
    ensures !HasId(items, id) ==> QuantityStepped(items, id, delta) == items
    ensures HasId(items, id) && QuantityOf(items, id) + delta >= 1 ==>
      QuantityOf(QuantityStepped(items, id, delta), id) == QuantityOf(items, id) + delta
    ensures HasId(items, id) && QuantityOf(items, id) + delta < 1 ==>
      !HasId(QuantityStepped(items, id, delta), id)
  {
    var r := QuantityStepped(items, id, delta);
    if HasId(items, id) {
      var q := QuantityOf(items, id) + delta;
      assert r == Updated(items, id, q);
      UpdateKeepsInv(items, id, q);
      UpdateSetsQuantity(items, id, q);
    } else {
      assert Find(items, id).None?;
    }
  }

  /** `cartItems.length === 0`: the empty view is shown instead of the
      lines. */
  predicate ShowsEmptyView(items: seq<CartItem>)
  {
    |items| == 0
  }

  /** The page's own state. */
  class CartView {
    var promoCode: string
    var bonusCard: string
    var appliedPromo: bool

    constructor ()
      ensures promoCode == "" && bonusCard == "" && !appliedPromo
    {
      promoCode := "";
      bonusCard := "";
      appliedPromo := false;
    }

    /** `handleUpdateQuantity`. */
    method HandleUpdateQuantity(cart: Cart, id: Id, delta: int)
      modifies cart`items, cart`slot
      ensures cart.items == QuantityStepped(old(cart.items), id, delta)
      ensures cart.isMounted && HasId(old(cart.items), id) ==> cart.slot == Items(cart.items)
      ensures !cart.isMounted || !HasId(old(cart.items), id) ==> cart.slot == old(cart.slot)
    {
      var item := Find(cart.items, id);
      if item.Some? {
        cart.UpdateQuantity(id, item.value.quantity + delta);
      }
    }

    /** `applyPromoCode`: a code that is not blank marks the promo applied
        (and shows the success toast); a blank one changes nothing. */
    method ApplyPromoCode() returns (toast: bool)
      modifies this`appliedPromo
      ensures toast <==> Trim(promoCode) != []
      ensures appliedPromo == (old(appliedPromo) || toast)
    {
      toast := Trim(promoCode) != [];
      if toast {
        appliedPromo := true;
      }
    }

    /** `applyBonusCard`: only the success toast, for a card that is not
        blank. */
    method ApplyBonusCard() returns (toast: bool)
      ensures toast <==> Trim(bonusCard) != []
    {
      toast := Trim(bonusCard) != [];
    }

    /** `handleCheckout`: go to the checkout only with something in the
        cart. */
    method HandleCheckout(items: seq<CartItem>) returns (navigate: bool)
      ensures navigate <==> !ShowsEmptyView(items)
    {
      if |items| == 0 {
        return false;
      }
      return true;
    }
  }
}
