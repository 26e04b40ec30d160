/** The cart store of contexts/CartContext.tsx: an ordered list of lines, one
    per product id, each with a quantity, mirrored into the "cart" storage
    slot once the provider has mounted. */
module CartContext {
  import opened Types

  // ---------------------------------------------------------------------
  // The list operations, as functions of the current lines

  /** `current.some(item => item.id === id)`. */
  predicate HasId(items: seq<CartItem>, id: Id)
  {
    exists k :: 0 <= k < |items| && items[k].id == id
  }

  /** `current.find(item => item.id === id)`: the first matching line. */
  function Find(items: seq<CartItem>, id: Id): (r: Option<CartItem>)
    ensures r.None? <==> !HasId(items, id)
    ensures r.Some? ==> r.value in items && r.value.id == id
    ensures r.Some? ==> exists k :: 0 <= k < |items| && items[k] == r.value &&
                         forall j :: 0 <= j < k ==> items[j].id != id
  {
    if items == [] then None
    else if items[0].id == id then Some(items[0])
    else
      var r := Find(items[1..], id);
      if r.Some? then
        ghost var k :| 0 <= k < |items[1..]| && items[1..][k] == r.value &&
                       forall j :: 0 <= j < k ==> items[1..][j].id != id;
        assert items[k + 1] == r.value;
        r
      else r
  }

  /** The line a new item starts as. */
  function NewLine(item: NewCartItem): CartItem
  {
    CartItem(item.id, item.name, item.model, item.price, 1, item.images, item.category)
  }

  /** Every line with `id` gets one more unit. */
  function Bump(items: seq<CartItem>, id: Id): seq<CartItem>
  {
    if items == [] then []
    else
      var head := if items[0].id == id then items[0].(quantity := items[0].quantity + 1) else items[0];
      [head] + Bump(items[1..], id)
  }

  /** Every line with `id` gets quantity `q`. */
  function SetQuantity(items: seq<CartItem>, id: Id, q: int): seq<CartItem>
  {
    if items == [] then []
    else
      var head := if items[0].id == id then items[0].(quantity := q) else items[0];
      [head] + SetQuantity(items[1..], id, q)
  }

  /** `current.filter(item => item.id !== id)`. */
  function Without(items: seq<CartItem>, id: Id): seq<CartItem>
  {
    if items == [] then []
    else if items[0].id == id then Without(items[1..], id)
    else [items[0]] + Without(items[1..], id)
  }

  /** The lines after `addToCart(item)`. */
  function Added(items: seq<CartItem>, item: NewCartItem): seq<CartItem>
  {
    if HasId(items, item.id) then Bump(items, item.id) else items + [NewLine(item)]
  }

  /** The lines after `updateQuantity(id, q)`: below 1 removes the line. */
  function Updated(items: seq<CartItem>, id: Id, q: int): seq<CartItem>
  {
    if q < 1 then Without(items, id) else SetQuantity(items, id, q)
  }

  /** `getItemQuantity(id)`. */
  function QuantityOf(items: seq<CartItem>, id: Id): int
  {
    match Find(items, id)
    case Some(line) => line.quantity
    case None => 0
  }

  /** The `totalItems` reduction. */
  function TotalItems(items: seq<CartItem>): int
  {
    if items == [] then 0 else items[0].quantity + TotalItems(items[1..])
  }

  /** The `cartTotal` reduction, in cents. */
  function CartTotal(items: seq<CartItem>): int
  {
    if items == [] then 0 else items[0].price * items[0].quantity + CartTotal(items[1..])
  }

  predicate UniqueIds(items: seq<CartItem>)
  {
    forall i, j :: 0 <= i < j < |items| ==> items[i].id != items[j].id
  }

  /** What the cart's own operations keep: one line per id, each with a
      quantity of at least 1. */
  predicate Inv(items: seq<CartItem>)
  {
    UniqueIds(items) && forall k :: 0 <= k < |items| ==> items[k].quantity >= 1
  }

  // ---------------------------------------------------------------------
  // Loading the storage slot

  /** What the mount effect leaves in the `cartItems` state: a list of lines,
      or (for JSON that is not an array) a value the next render's
      `cartItems.reduce` cannot fold. */
  datatype CartState = Lines(items: seq<CartItem>) | NotAList

  /** The mount effect as written: non-empty text is parsed and stored as
      is, unparseable text gives [], nothing stored leaves []. */
  function LoadAsWritten(saved: Snapshot<CartItem>): (r: CartState)
    ensures r.NotAList? <==> saved.NotAnArray?
    ensures saved.Items? ==> r == Lines(saved.items)
  {
    match saved
    case Absent => Lines([])
    case Unparseable => Lines([])
    case NotAnArray => NotAList
    case Items(xs) => Lines(xs)
  }

  /** JSON that is not an array reaches the cart state unchanged and breaks
      the `reduce` of every later render. */
  lemma LoadAsWrittenAcceptsNonArray()
    ensures LoadAsWritten(NotAnArray).NotAList?
    ensures !LoadAsWritten(Unparseable).NotAList?
  {
  }

  /** The mount effect as evidently intended (and as the wishlist does it):
      anything that is not an array of lines gives the empty cart. */
  function Load(saved: Snapshot<CartItem>): (r: seq<CartItem>)
    ensures saved.Items? ==> r == saved.items
    ensures !saved.Items? ==> r == []
    ensures LoadAsWritten(saved).Lines? ==> r == LoadAsWritten(saved).items
  {
    if saved.Items? then saved.items else []
  }

  // ---------------------------------------------------------------------
  // Properties of the operations

  lemma {:induction false} BumpPointwise(items: seq<CartItem>, id: Id)
    ensures |Bump(items, id)| == |items|
    ensures forall k :: 0 <= k < |items| ==>
      Bump(items, id)[k] == (if items[k].id == id then items[k].(quantity := items[k].quantity + 1) else items[k])
  {
    if items != [] {
      BumpPointwise(items[1..], id);
    }
  }

  lemma {:induction false} SetQuantityPointwise(items: seq<CartItem>, id: Id, q: int)
    ensures |SetQuantity(items, id, q)| == |items|
    ensures forall k :: 0 <= k < |items| ==>
      SetQuantity(items, id, q)[k] == (if items[k].id == id then items[k].(quantity := q) else items[k])
  {
    if items != [] {
      SetQuantityPointwise(items[1..], id, q);
    }
  }

  lemma {:induction false} WithoutMembers(items: seq<CartItem>, id: Id)
    ensures |Without(items, id)| <= |items|
    ensures forall x :: x in Without(items, id) <==> x in items && x.id != id
  {
    if items != [] {
      WithoutMembers(items[1..], id);
      assert items == [items[0]] + items[1..];
    }
  }

  /** Adding an id already in the cart adds one unit to that id's line and
      changes nothing else: same length, same order, same other lines. */
  lemma AddExisting(items: seq<CartItem>, item: NewCartItem)
    requires HasId(items, item.id)
    ensures |Added(items, item)| == |items|
    ensures forall k :: 0 <= k < |items| ==>
      Added(items, item)[k] == (if items[k].id == item.id then items[k].(quantity := items[k].quantity + 1) else items[k])
  {
    BumpPointwise(items, item.id);
  }

  /** Adding a new id appends one line of quantity 1 carrying the item's
      fields. */
  lemma AddNew(items: seq<CartItem>, item: NewCartItem)
    requires !HasId(items, item.id)
    ensures Added(items, item) == items + [NewLine(item)]
    ensures Added(items, item)[|items|].quantity == 1
    ensures Added(items, item)[|items|].id == item.id && Added(items, item)[|items|].price == item.price
  {
  }

  /** `n` successive adds of an item to an empty cart. */
  function AddTimes(items: seq<CartItem>, item: NewCartItem, n: nat): seq<CartItem>
  {
    if n == 0 then items else Added(AddTimes(items, item, n - 1), item)
  }

  /** Adding the same item `n` times to an empty cart gives exactly one line,
      of quantity `n`. */
  lemma {:induction false} AddRepeatedly(item: NewCartItem, n: nat)
    requires n >= 1
    ensures AddTimes([], item, n) == [NewLine(item).(quantity := n)]
  {
    if n > 1 {
      AddRepeatedly(item, n - 1);
      var prev := AddTimes([], item, n - 1);
      assert prev[0].id == item.id;
      assert HasId(prev, item.id);
      BumpPointwise(prev, item.id);
    }
  }

  /** Adding keeps one line per id, each of quantity at least 1. */
  lemma AddKeepsInv(items: seq<CartItem>, item: NewCartItem)
    requires Inv(items)
    ensures Inv(Added(items, item))
  {
    if HasId(items, item.id) {
      BumpPointwise(items, item.id);
    }
  }

  /** After removal the id is absent and every other line is kept in order. */
  lemma {:induction false} RemoveKeepsOthers(items: seq<CartItem>, id: Id)
    ensures !HasId(Without(items, id), id)
    ensures !HasId(items, id) ==> Without(items, id) == items
    ensures Without(Without(items, id), id) == Without(items, id)
  {
    WithoutMembers(items, id);
    if items != [] {
      RemoveKeepsOthers(items[1..], id);
      if !HasId(items, id) {
        assert items[0].id != id;
        assert !HasId(items[1..], id) by {
          forall k | 0 <= k < |items[1..]| ensures items[1..][k].id != id {
            assert items[1..][k] == items[k + 1];
          }
        }
      }
    }
    var r := Without(items, id);
    forall k | 0 <= k < |r| ensures r[k].id != id {
      assert r[k] in r;
    }
  }

  lemma {:induction false} WithoutUnique(items: seq<CartItem>, id: Id)
    requires Inv(items)
    ensures Inv(Without(items, id))
  {
    if items != [] {
      WithoutUnique(items[1..], id);
      WithoutMembers(items[1..], id);
      if items[0].id != id {
        var r := Without(items, id);
        assert r == [items[0]] + Without(items[1..], id);
        forall j | 1 <= j < |r| ensures r[j].id != items[0].id {
          assert r[j] in Without(items[1..], id);
          assert r[j] in items[1..];
        }
      }
    }
  }

  /** Removing keeps one line per id, each of quantity at least 1. */
  lemma RemoveKeepsInv(items: seq<CartItem>, id: Id)
    requires Inv(items)
    ensures Inv(Without(items, id))
  {
    WithoutUnique(items, id);
  }

  /** A quantity below 1 removes the line; otherwise the quantity is set
      (not added) on that id's line, and nothing else changes. */
  lemma UpdateSetsQuantity(items: seq<CartItem>, id: Id, q: int)
    ensures q < 1 ==> !HasId(Updated(items, id, q), id)
    ensures q >= 1 ==> |Updated(items, id, q)| == |items|
    ensures q >= 1 ==> forall k :: 0 <= k < |items| ==>
      Updated(items, id, q)[k] == (if items[k].id == id then items[k].(quantity := q) else items[k])
    ensures q >= 1 && HasId(items, id) ==> QuantityOf(Updated(items, id, q), id) == q
  {
    if q < 1 {
      RemoveKeepsOthers(items, id);
    } else {
      SetQuantityPointwise(items, id, q);
      if HasId(items, id) {
        SetQuantityFinds(items, id, q);
      }
    }
  }

  lemma {:induction false} SetQuantityFinds(items: seq<CartItem>, id: Id, q: int)
    requires HasId(items, id)
    ensures QuantityOf(SetQuantity(items, id, q), id) == q
  {
    var r := SetQuantity(items, id, q);
    if items[0].id != id {
      var k :| 0 <= k < |items| && items[k].id == id;
      assert items[1..][k - 1].id == id;
      SetQuantityFinds(items[1..], id, q);
      assert r[0].id != id && r[1..] == SetQuantity(items[1..], id, q);
      assert Find(r, id) == Find(r[1..], id);
    }
  }

  /** Updating keeps one line per id, each of quantity at least 1. */
  lemma UpdateKeepsInv(items: seq<CartItem>, id: Id, q: int)
    requires Inv(items)
    ensures Inv(Updated(items, id, q))
  {
    if q < 1 {
      WithoutUnique(items, id);
    } else {
      SetQuantityPointwise(items, id, q);
    }
  }

  /** Under the invariant `getItemQuantity` is 0 exactly for ids not in the
      cart, and `isInCart` agrees with it. */
  lemma QuantityZeroIffAbsent(items: seq<CartItem>, id: Id)
    requires Inv(items)
    ensures QuantityOf(items, id) == 0 <==> !HasId(items, id)
    ensures HasId(items, id) ==> QuantityOf(items, id) >= 1
  {
  }

  lemma {:induction false} BumpTotals(items: seq<CartItem>, id: Id)
    requires UniqueIds(items) && HasId(items, id)
    ensures TotalItems(Bump(items, id)) == TotalItems(items) + 1
    ensures CartTotal(Bump(items, id)) == CartTotal(items) + Find(items, id).value.price
  {
    if items[0].id == id {
      assert !HasId(items[1..], id) by {
        forall k | 0 <= k < |items[1..]| ensures items[1..][k].id != id {
          assert items[k + 1].id != items[0].id;
        }
      }
      BumpAbsent(items[1..], id);
    } else {
      var k :| 0 <= k < |items| && items[k].id == id;
      assert items[1..][k - 1].id == id;
      BumpTotals(items[1..], id);
    }
  }

  lemma {:induction false} BumpAbsent(items: seq<CartItem>, id: Id)
    requires !HasId(items, id)
    ensures Bump(items, id) == items
  {
    if items != [] {
      assert !HasId(items[1..], id) by {
        forall k | 0 <= k < |items[1..]| ensures items[1..][k].id != id {
          assert items[1..][k] == items[k + 1];
        }
      }
      BumpAbsent(items[1..], id);
    }
  }

  lemma {:induction false} TotalsAppend(items: seq<CartItem>, x: CartItem)
    ensures TotalItems(items + [x]) == TotalItems(items) + x.quantity
    ensures CartTotal(items + [x]) == CartTotal(items) + x.price * x.quantity
  {
    if items != [] {
      assert (items + [x])[1..] == items[1..] + [x];
      TotalsAppend(items[1..], x);
    }
  }

  /** One add raises `totalItems` by one and `cartTotal` by the price of the
      affected line (the stored line's price when the id is already there). */
  lemma AddTotals(items: seq<CartItem>, item: NewCartItem)
    requires UniqueIds(items)
    ensures TotalItems(Added(items, item)) == TotalItems(items) + 1
    ensures CartTotal(Added(items, item)) ==
      CartTotal(items) + (if HasId(items, item.id) then Find(items, item.id).value.price else item.price)
  {
    if HasId(items, item.id) {
      BumpTotals(items, item.id);
    } else {
      TotalsAppend(items, NewLine(item));
    }
  }

  /** Removing a line lowers `totalItems` by that line's quantity. */
  lemma {:induction false} RemoveTotals(items: seq<CartItem>, id: Id)
    requires UniqueIds(items)
    ensures TotalItems(Without(items, id)) == TotalItems(items) - QuantityOf(items, id)
  {
    if items != [] {
      if items[0].id == id {
        assert !HasId(items[1..], id) by {
          forall k | 0 <= k < |items[1..]| ensures items[1..][k].id != id {
            assert items[k + 1].id != items[0].id;
          }
        }
        RemoveKeepsOthers(items[1..], id);
      } else {
        RemoveTotals(items[1..], id);
      }
    }
  }

  // ---------------------------------------------------------------------
  // The provider

  /** The provider's state: `cartItems`, `isMounted` and the "cart" slot. */
  class Cart {
    var items: seq<CartItem>
    var isMounted: bool
    var slot: Snapshot<CartItem>

    /** The first render: an empty cart, the slot as the browser holds it. */
    constructor (saved: Snapshot<CartItem>)
      ensures items == [] && !isMounted && slot == saved
    {
      items := [];
      isMounted := false;
      slot := saved;
    }

    /** The mount effect, then the save effect it triggers. */
    method Mount()
      modifies this
      ensures isMounted
      ensures items == Load(old(slot))
      ensures slot == Items(items)
    {
      isMounted := true;
      items := Load(slot);
      slot := Items(items);
    }

    /** The save effect after a change of `cartItems`. */
    method Save()
      modifies this`slot
      ensures isMounted ==> slot == Items(items)
      ensures !isMounted ==> slot == old(slot)
    {
      if isMounted {
        slot := Items(items);
      }
    }

    method AddToCart(item: NewCartItem)
      modifies this`items, this`slot
      ensures items == Added(old(items), item)
      ensures isMounted ==> slot == Items(items)
      ensures !isMounted ==> slot == old(slot)
    {
      items := Added(items, item);
      Save();
    }

    method RemoveFromCart(id: Id)
      modifies this`items, this`slot
      ensures items == Without(old(items), id)
      ensures isMounted ==> slot == Items(items)
      ensures !isMounted ==> slot == old(slot)
    {
      items := Without(items, id);
      Save();
    }

    method UpdateQuantity(id: Id, quantity: int)
      modifies this`items, this`slot
      ensures items == Updated(old(items), id, quantity)
      ensures isMounted ==> slot == Items(items)
      ensures !isMounted ==> slot == old(slot)
    {
      if quantity < 1 {
        RemoveFromCart(id);
        return;
      }
      items := SetQuantity(items, id, quantity);
      Save();
    }

    method ClearCart()
      modifies this`items, this`slot
      ensures items == [] && TotalItems(items) == 0 && CartTotal(items) == 0
      ensures isMounted ==> slot == Items([])
      ensures !isMounted ==> slot == old(slot)
    {
      items := [];
      Save();
    }

    function GetItemQuantity(id: Id): (r: int)
      reads this
      ensures r == 0 || HasId(items, id)
      ensures HasId(items, id) ==> r == Find(items, id).value.quantity
    {
      QuantityOf(items, id)
    }

    /** `cartItems.some(item => item.id === id)`: a line for `id` exists,
        which in a well-formed cart is the same as a positive quantity. */
    function IsInCart(id: Id): (r: bool)
      reads this
      ensures r <==> Find(items, id).Some?
      ensures Inv(items) ==> (r <==> GetItemQuantity(id) >= 1)
      ensures !r ==> GetItemQuantity(id) == 0
    {
      HasId(items, id)
    }
  }
}
