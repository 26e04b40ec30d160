/** The product page of components/features/products/DetailsPage.tsx: the
    thumbnail strip, the picture selected first, and the cart and wishlist
    buttons. */
module DetailsPage {
  import opened Types
  import opened Seqs
  import CartContext
  import opened WishlistContext

  const MaxThumbnails := 4
  const Placeholder := "/placeholder.png"

  /** `[v?.front, v?.side, v?.back].filter(Boolean)`: the pictures that are
      there, in that order. */
  function Pictures(v: Option<ViewImages>): seq<string>
  {
    match v
    case None => []
    case Some(w) => Filter([w.front, w.side, w.back], (s: string) => s != "")
  }

  lemma PicturesNonEmpty(v: Option<ViewImages>)
    ensures forall s :: s in Pictures(v) ==> s != ""
  {
    if v.Some? {
      FilterMembers([v.value.front, v.value.side, v.value.back], (s: string) => s != "");
    }
  }

  /** Every candidate picture, before the cut to four. */
  function AllPictures(p: Product): seq<string>
  {
    p.images + Pictures(p.viewImages) + Pictures(p.views)
  }

  /** `thumbnailImages`: the product's images come first, then the present
      `viewImages` and `views` pictures; at most four are kept, so with four
      images or more the strip is the first four images. */
  function Thumbnails(p: Product): (r: seq<string>)
    ensures |r| <= MaxThumbnails
    ensures r <= AllPictures(p)
    ensures |r| == MaxThumbnails || r == AllPictures(p)
    ensures forall i :: 0 <= i < |r| && i < |p.images| ==> r[i] == p.images[i]
    ensures |p.images| >= MaxThumbnails ==> r == p.images[..MaxThumbnails]
    ensures forall i :: |p.images| <= i < |r| ==> r[i] != ""
  {
    var all := AllPictures(p);
    PicturesNonEmpty(p.viewImages);
    PicturesNonEmpty(p.views);
    assert forall i :: |p.images| <= i < |all| ==> all[i] in Pictures(p.viewImages) + Pictures(p.views) by {
      forall i | |p.images| <= i < |all|
        ensures all[i] in Pictures(p.viewImages) + Pictures(p.views)
      {
        assert all[i] == (Pictures(p.viewImages) + Pictures(p.views))[i - |p.images|];
      }
    }
    if |all| <= MaxThumbnails then all else all[..MaxThumbnails]
  }

  /** The first `selectedImage`: the first thumbnail when it is a non-empty
      path, the placeholder otherwise. It is never empty and is always a
      thumbnail or the placeholder. */
  function InitialImage(p: Product): (r: string)
    ensures r != ""
    ensures r in Thumbnails(p) || r == Placeholder
    ensures Thumbnails(p) != [] && Thumbnails(p)[0] != "" ==> r == Thumbnails(p)[0]
  {
    var t := Thumbnails(p);
    if t != [] && t[0] != "" then t[0] else Placeholder
  }

  /** A product without images still opens on a view picture when it has
      one: the first present `viewImages` picture, else the first present
      `views` picture. */
  lemma OpensOnViewPicture(p: Product)
    requires p.images == [] && Pictures(p.viewImages) + Pictures(p.views) != []
    ensures InitialImage(p) == (Pictures(p.viewImages) + Pictures(p.views))[0]
  {
    PicturesNonEmpty(p.viewImages);
    PicturesNonEmpty(p.views);
    var rest := Pictures(p.viewImages) + Pictures(p.views);
    assert AllPictures(p) == rest;
    assert rest[0] in rest;
  }

  // ---------------------------------------------------------- the cart button

  /** What `handleAddToCart` passes to `addToCart`: the model doubles as the
      line's name. */
  function CartLine(p: Product): NewCartItem
  {
    NewCartItem(NumId(p.id), p.model, Some(p.model), p.price, Some(p.images), Some(p.category))
  }

  /** After the cart button the product's id is in the cart and the item
      count is one higher; a product not yet in the cart gets a line of its
      own, named after its model, of quantity 1. */
  lemma AddToCartSpec(items: seq<CartItem>, p: Product)
    requires CartContext.Inv(items)
    ensures CartContext.HasId(CartContext.Added(items, CartLine(p)), NumId(p.id))
    ensures CartContext.TotalItems(CartContext.Added(items, CartLine(p))) == CartContext.TotalItems(items) + 1
    ensures !CartContext.HasId(items, NumId(p.id)) ==>
      CartContext.Added(items, CartLine(p)) ==
        items + [CartItem(NumId(p.id), p.model, Some(p.model), p.price, 1, Some(p.images), Some(p.category))]
  {
    CartContext.AddTotals(items, CartLine(p));
    var r := CartContext.Added(items, CartLine(p));
    if CartContext.HasId(items, NumId(p.id)) {
      CartContext.AddExisting(items, CartLine(p));
      var k :| 0 <= k < |items| && items[k].id == NumId(p.id);
      assert r[k].id == NumId(p.id);
    } else {
      assert r[|items|].id == NumId(p.id);
    }
  }

  /** `handleAddToCart`. */
  method HandleAddToCart(cart: CartContext.Cart, p: Product)
    modifies cart`items, cart`slot
    ensures cart.items == CartContext.Added(old(cart.items), CartLine(p))
    ensures cart.isMounted ==> cart.slot == Items(cart.items)
    ensures !cart.isMounted ==> cart.slot == old(cart.slot)
  {
    cart.AddToCart(CartLine(p));
  }

  // ------------------------------------------------------ the wishlist button

  /** What `handleWishlist` saves: the product's fields, its brand, and the
      time of the press. */
  function WishlistEntry(p: Product, now: string): WishlistItem
  {
    WishlistItem(NumId(p.id), p.model, p.model, p.price, Some(p.images), Some(p.category), p.brand, now)
  }

  /** The wishlist after `handleWishlist`: a product with the falsy id 0 is
      refused; a saved product is removed; any other is saved. */
  function Toggled(items: seq<WishlistItem>, p: Product, now: string): seq<WishlistItem>
  {
    if p.id == 0 then items
    else if HasId(items, NumId(p.id)) then Without(items, NumId(p.id))
    else Added(items, WishlistEntry(p, now))
  }

  /** The button flips whether the product is saved (id 0 aside, which
      changes nothing), and the list keeps one entry per id. */
  lemma ToggleFlips(items: seq<WishlistItem>, p: Product, now: string)
    requires UniqueIds(items)
    ensures p.id == 0 ==> Toggled(items, p, now) == items
    ensures p.id != 0 ==> HasId(Toggled(items, p, now), NumId(p.id)) == !HasId(items, NumId(p.id))
    ensures UniqueIds(Toggled(items, p, now))
  {
    if p.id != 0 {
      if HasId(items, NumId(p.id)) {
        RemoveOnlyThat(items, NumId(p.id));
        WithoutUnique(items, NumId(p.id));
      } else {
        AddIdempotent(items, WishlistEntry(p, now));
      }
    }
  }

  /** Two presses restore whether the product is saved; when it was not
      saved, they restore the list itself. */
  lemma ToggleTwice(items: seq<WishlistItem>, p: Product, now1: string, now2: string)
    requires UniqueIds(items)
    ensures HasId(Toggled(Toggled(items, p, now1), p, now2), NumId(p.id)) == HasId(items, NumId(p.id))
    ensures !HasId(items, NumId(p.id)) ==> Toggled(Toggled(items, p, now1), p, now2) == items
  {
    ToggleFlips(items, p, now1);
    ToggleFlips(Toggled(items, p, now1), p, now2);
    if p.id != 0 && !HasId(items, NumId(p.id)) {
      AddThenRemove(items, WishlistEntry(p, now1));
    }
  }

  /** `handleWishlist`; `now` is `new Date().toISOString()`. */
  method HandleWishlist(wishlist: Wishlist, p: Product, now: string, writeOk: bool)
    modifies wishlist`items, wishlist`slot
    ensures wishlist.items == Toggled(old(wishlist.items), p, now)
    ensures p.id == 0 ==> wishlist.slot == old(wishlist.slot)
    ensures p.id != 0 && wishlist.isInitialized && writeOk ==> wishlist.slot == Items(wishlist.items)
    ensures !(wishlist.isInitialized && writeOk) ==> wishlist.slot == old(wishlist.slot)
  {
    if p.id == 0 {
      return;
    }
    if wishlist.IsInWishlist(NumId(p.id)) {
      wishlist.RemoveFromWishlist(NumId(p.id), writeOk);
    } else {
      wishlist.AddToWishlist(WishlistEntry(p, now), writeOk);
    }
  }
}
