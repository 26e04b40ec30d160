/** The wishlist page of components/features/wishList/WishlistContent.tsx:
    the saved products with their total value, and the moves from the
    wishlist into the cart. Prices are in cents. */
module WishlistContent {
  import opened Types
  import opened WishlistContext
  import CartContext

  /** `wishlistItems.reduce((sum, item) => sum + item.price, 0)`. */
  function TotalValue(items: seq<WishlistItem>): int
  {
    if items == [] then 0 else items[0].price + TotalValue(items[1..])
  }

  /** `wishlistItems.find(i => i.id === id)`. */
  function FindItem(items: seq<WishlistItem>, id: Id): (r: Option<WishlistItem>)
    ensures r.None? <==> !HasId(items, id)
    ensures r.Some? ==> r.value in items && r.value.id == id
    ensures r.Some? ==> exists k :: (0 <= k < |items| && items[k] == r.value &&
      forall j :: 0 <= j < k ==> items[j].id != id)
  {
    if items == [] then None
    else if items[0].id == id then Some(items[0])
    else
      var r := FindItem(items[1..], id);
      assert HasId(items[1..], id) ==> HasId(items, id) by {
        if HasId(items[1..], id) {
          var k :| 0 <= k < |items[1..]| && items[1..][k].id == id;
          assert items[k + 1].id == id;
        }
      }
      assert r.Some? ==> exists k :: (0 <= k < |items| && items[k] == r.value &&
        forall j :: 0 <= j < k ==> items[j].id != id) by {
        if r.Some? {
          var k :| 0 <= k < |items[1..]| && items[1..][k] == r.value &&
            forall j :: 0 <= j < k ==> items[1..][j].id != id;
          assert items[k + 1] == r.value;
          forall j | 0 <= j < k + 1 ensures items[j].id != id {
            if j > 0 { assert items[j] == items[1..][j - 1]; }
          }
        }
      }
      r
  }

  /** The cart line a saved product is added as. */
  function ToCartItem(item: WishlistItem): (c: NewCartItem)
    ensures c.id == item.id && c.name == item.name && c.price == item.price
    ensures c.model == Some(item.model) && c.images == item.images && c.category == item.category
  {
    NewCartItem(item.id, item.name, Some(item.model), item.price, item.images, item.category)
  }

  /** Removing a saved product lowers the total value by exactly its price. */
  lemma {:induction false} RemoveLowersTotalValue(items: seq<WishlistItem>, id: Id)
    requires UniqueIds(items) && HasId(items, id)
    ensures TotalValue(Without(items, id)) == TotalValue(items) - FindItem(items, id).value.price
  {
    if items[0].id == id {
      assert !HasId(items[1..], id) by {
        forall k | 0 <= k < |items[1..]| ensures items[1..][k].id != id {
          assert items[k + 1].id != items[0].id;
        }
      }
      RemoveOnlyThat(items[1..], id);
    } else {
      var k :| 0 <= k < |items| && items[k].id == id;
      assert items[1..][k - 1].id == id;
      RemoveLowersTotalValue(items[1..], id);
    }
  }

  /** Moving a saved product to the cart takes it off the wishlist (and
      lowers the total value by its price), puts its id in the cart, and
      adds one unit to the cart's item count. */
  lemma MoveToCartSpec(cartItems: seq<CartItem>, saved: seq<WishlistItem>, id: Id)
    requires CartContext.Inv(cartItems) && UniqueIds(saved) && HasId(saved, id)
    ensures var item := FindItem(saved, id).value;
      !HasId(Without(saved, id), id) &&
      TotalValue(Without(saved, id)) == TotalValue(saved) - item.price &&
      CartContext.HasId(CartContext.Added(cartItems, ToCartItem(item)), id) &&
      CartContext.TotalItems(CartContext.Added(cartItems, ToCartItem(item))) == CartContext.TotalItems(cartItems) + 1
  {
    var item := FindItem(saved, id).value;
    RemoveOnlyThat(saved, id);
    RemoveLowersTotalValue(saved, id);
    CartContext.AddTotals(cartItems, ToCartItem(item));
    if CartContext.HasId(cartItems, id) {
      CartContext.AddExisting(cartItems, ToCartItem(item));
      var k :| 0 <= k < |cartItems| && cartItems[k].id == id;
      assert CartContext.Added(cartItems, ToCartItem(item))[k].id == id;
    } else {
      var r := CartContext.Added(cartItems, ToCartItem(item));
      assert r[|cartItems|].id == id;
    }
  }

  /** `totalItems === 0`: the empty view is shown. */
  function ShowsEmptyView(items: seq<WishlistItem>): (r: bool)
    ensures r <==> forall id :: !HasId(items, id)
  {
    assert items != [] ==> HasId(items, items[0].id);
    |items| == 0
  }

  /** `handleMoveToCart`: an id not on the wishlist does nothing; otherwise
      the product is added to the cart and removed from the wishlist. */
  method HandleMoveToCart(cart: CartContext.Cart, wishlist: Wishlist, id: Id, writeOk: bool)
    returns (moved: bool)
    modifies cart`items, cart`slot, wishlist`items, wishlist`slot
    ensures moved <==> HasId(old(wishlist.items), id)
    ensures !moved ==> cart.items == old(cart.items) && wishlist.items == old(wishlist.items) &&
                       cart.slot == old(cart.slot) && wishlist.slot == old(wishlist.slot)
    ensures moved ==> cart.items == CartContext.Added(old(cart.items), ToCartItem(FindItem(old(wishlist.items), id).value))
    ensures moved ==> wishlist.items == Without(old(wishlist.items), id)
    ensures moved && cart.isMounted ==> cart.slot == Items(cart.items)
    ensures moved && !cart.isMounted ==> cart.slot == old(cart.slot)
    ensures moved && wishlist.isInitialized && writeOk ==> wishlist.slot == Items(wishlist.items)
    ensures moved && !(wishlist.isInitialized && writeOk) ==> wishlist.slot == old(wishlist.slot)
  {
    var item := FindItem(wishlist.items, id);
    if item.None? {
      return false;
    }
    cart.AddToCart(ToCartItem(item.value));
    wishlist.RemoveFromWishlist(id, writeOk);
    return true;
  }

  /** `handleRemove`. */
  method HandleRemove(wishlist: Wishlist, id: Id, writeOk: bool)
    modifies wishlist`items, wishlist`slot
    ensures wishlist.items == Without(old(wishlist.items), id)
    ensures wishlist.isInitialized && writeOk ==> wishlist.slot == Items(wishlist.items)
    ensures !(wishlist.isInitialized && writeOk) ==> wishlist.slot == old(wishlist.slot)
  {
    wishlist.RemoveFromWishlist(id, writeOk);
  }

  /** `handleClearAll`: the list is emptied only when the user confirms. */
  method HandleClearAll(wishlist: Wishlist, confirmed: bool, writeOk: bool)
    modifies wishlist`items, wishlist`slot
    ensures confirmed ==> wishlist.items == []
    ensures confirmed && wishlist.isInitialized && writeOk ==> wishlist.slot == Items([])
    ensures confirmed && !(wishlist.isInitialized && writeOk) ==> wishlist.slot == old(wishlist.slot)
    ensures !confirmed ==> wishlist.items == old(wishlist.items) && wishlist.slot == old(wishlist.slot)
  {
    if confirmed {
      wishlist.ClearWishlist(writeOk);
    }
  }
}
