/** The order summary of components/features/checkout/OrderSummary.tsx: the
    cart's lines, the chosen address and shipment, and the money rows. All
    amounts are in cents. */
module OrderSummary {
  import opened Types
  import opened CartContext
  import AddressStep

  /** The estimated tax, a flat $50. */
  const Tax := 5000

  /** The express shipping charge, $8.50. */
  const ExpressCost := 850

  /** `shippingCost`: express is charged, free and scheduled delivery are not. */
  function ShippingCost(shipping: string): (c: nat)
    ensures c == ExpressCost <==> shipping == "express"
    ensures c == 0 <==> shipping != "express"
  {
    if shipping == "free" then 0 else if shipping == "express" then ExpressCost else 0
  }

  /** `subtotal + tax + shippingCost`. */
  function Total(items: seq<CartItem>, shipping: string): int
  {
    CartTotal(items) + Tax + ShippingCost(shipping)
  }

  /** `item.price * item.quantity`: the amount shown on a line. */
  function LineAmount(item: CartItem): int
  {
    item.price * item.quantity
  }

  function LineAmounts(items: seq<CartItem>): (r: seq<int>)
    ensures |r| == |items|
    ensures forall i :: 0 <= i < |items| ==> r[i] == LineAmount(items[i])
  {
    if items == [] then [] else [LineAmount(items[0])] + LineAmounts(items[1..])
  }

  function Sum(xs: seq<int>): int
  {
    if xs == [] then 0 else xs[|xs| - 1] + Sum(xs[..|xs| - 1])
  }

  lemma {:induction false} SumFront(xs: seq<int>)
    requires xs != []
    ensures Sum(xs) == xs[0] + Sum(xs[1..])
    decreases |xs|
  {
    if |xs| > 1 {
      SumFront(xs[..|xs| - 1]);
      assert xs[..|xs| - 1][1..] == xs[1..][..|xs[1..]| - 1];
    }
  }

  /** The amounts shown on the lines add up to the subtotal, and the total
      is the subtotal plus the tax plus at most the express charge. */
  lemma {:induction false} LinesAddUpToSubtotal(items: seq<CartItem>, shipping: string)
    ensures Sum(LineAmounts(items)) == CartTotal(items)
    ensures CartTotal(items) + Tax <= Total(items, shipping) <= CartTotal(items) + Tax + ExpressCost
  {
    if items != [] {
      LinesAddUpToSubtotal(items[1..], shipping);
      SumFront(LineAmounts(items));
      assert LineAmounts(items)[1..] == LineAmounts(items[1..]);
    }
  }

  /** A row of the summary that is shown only from some step on. */
  datatype Row = Hidden | Shown(text: string)

  /** `addresses.find(a => a.id === selected)`. */
  function FindAddress(addresses: seq<Address>, id: string): (r: Option<Address>)
    ensures r.None? <==> forall a :: a in addresses ==> a.id != id
    ensures r.Some? ==> r.value in addresses && r.value.id == id
  {
    if addresses == [] then None
    else if addresses[0].id == id then Some(addresses[0])
    else FindAddress(addresses[1..], id)
  }

  /** The address found is the first one with that id. */
  lemma {:induction false} FindAddressIsFirst(addresses: seq<Address>, id: string)
    requires FindAddress(addresses, id).Some?
    ensures exists k :: (0 <= k < |addresses| && addresses[k] == FindAddress(addresses, id).value &&
                         forall j :: 0 <= j < k ==> addresses[j].id != id)
  {
    if addresses[0].id != id {
      FindAddressIsFirst(addresses[1..], id);
      var k :| 0 <= k < |addresses[1..]| && addresses[1..][k] == FindAddress(addresses, id).value &&
        forall j :: 0 <= j < k ==> addresses[1..][j].id != id;
      assert addresses[k + 1] == FindAddress(addresses, id).value;
      assert forall j :: 0 <= j < k + 1 ==> addresses[j].id != id by {
        forall j | 0 <= j < k + 1 ensures addresses[j].id != id {
          if j > 0 {
            assert addresses[j] == addresses[1..][j - 1];
          }
        }
      }
    } else {
      assert addresses[0] == FindAddress(addresses, id).value;
    }
  }

  /** The address row: from step 2 on, the text of the selected address
      (nothing when no address has the selected id). */
  function AddressRow(step: int, addresses: seq<Address>, selected: string): Row
  {
    if step > 1 then
      Shown(match FindAddress(addresses, selected) case Some(a) => a.address case None => "")
    else Hidden
  }

  /** Past the first step, with a selection the address step keeps valid,
      the row shows the address text of a listed address with that id. */
  lemma AddressRowShowsSelection(step: int, addresses: seq<Address>, selected: string)
    requires step > 1 && selected != "" && AddressStep.SelectionValid(addresses, selected)
    ensures exists a :: a in addresses && a.id == selected && AddressRow(step, addresses, selected) == Shown(a.address)
  {
    var i :| 0 <= i < |addresses| && AddressStep.Ids(addresses)[i] == selected;
    assert addresses[i] in addresses && addresses[i].id == selected;
  }

  /** The shipment label. */
  function ShipmentLabel(shipping: string): string
  {
    if shipping == "free" then "Free" else if shipping == "express" then "Express ($8.50)" else "Schedule"
  }

  /** The shipment row, from step 3 on. */
  function ShipmentRow(step: int, shipping: string): (r: Row)
    ensures r.Shown? <==> step > 2
    ensures r.Shown? ==> (r.text == "Express ($8.50)" <==> ShippingCost(shipping) == ExpressCost)
  {
    ShipmentLabelMatchesCost(shipping);
    if step > 2 then Shown(ShipmentLabel(shipping)) else Hidden
  }

  /** The label and the charge agree: the express label is shown exactly
      when the express charge is added, and every other label goes with no
      charge. */
  lemma ShipmentLabelMatchesCost(shipping: string)
    ensures ShipmentLabel(shipping) == "Express ($8.50)" <==> ShippingCost(shipping) == ExpressCost
    ensures ShipmentLabel(shipping) != "Express ($8.50)" <==> ShippingCost(shipping) == 0
    ensures ShipmentLabel(shipping) in {"Free", "Express ($8.50)", "Schedule"}
  {
  }
}
