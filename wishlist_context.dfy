/** The wishlist store of contexts/WishlistContext.tsx: a duplicate-free list
    of saved products, mirrored into the "wishlist" storage slot once the
    provider has initialised. */
module WishlistContext {
  import opened Types

  /** `current.some(item => item.id === id)`. */
  predicate HasId(items: seq<WishlistItem>, id: Id)
  {
    exists k :: 0 <= k < |items| && items[k].id == id
  }

  predicate UniqueIds(items: seq<WishlistItem>)
  {
    forall i, j :: 0 <= i < j < |items| ==> items[i].id != items[j].id
  }

  /** The list after `addToWishlist(product)`: unchanged when the id is
      already saved, otherwise the product appended. */
  function Added(items: seq<WishlistItem>, product: WishlistItem): seq<WishlistItem>
  {
    if HasId(items, product.id) then items else items + [product]
  }

  /** `current.filter(item => item.id !== id)`. */
  function Without(items: seq<WishlistItem>, id: Id): seq<WishlistItem>
  {
    if items == [] then []
    else if items[0].id == id then Without(items[1..], id)
    else [items[0]] + Without(items[1..], id)
  }

  /** The mount effect: an array replaces the current (still empty) list;
      nothing stored, unparseable text or a non-array keeps it. */
  function Load(current: seq<WishlistItem>, saved: Snapshot<WishlistItem>): (r: seq<WishlistItem>)
    ensures saved.Items? ==> r == saved.items
    ensures !saved.Items? ==> r == current
  {
    if saved.Items? then saved.items else current
  }

  lemma {:induction false} WithoutMembers(items: seq<WishlistItem>, id: Id)
    ensures forall x :: x in Without(items, id) <==> x in items && x.id != id
  {
    if items != [] {
      WithoutMembers(items[1..], id);
      assert items == [items[0]] + items[1..];
    }
  }

  /** Adding twice is adding once, and adding never duplicates an id. */
  lemma AddIdempotent(items: seq<WishlistItem>, product: WishlistItem)
    ensures Added(Added(items, product), product) == Added(items, product)
    ensures HasId(Added(items, product), product.id)
    ensures UniqueIds(items) ==> UniqueIds(Added(items, product))
  {
    if !HasId(items, product.id) {
      assert (items + [product])[|items|].id == product.id;
    }
  }

  /** Removing drops exactly the lines with that id and keeps the rest in
      order; removing an absent id changes nothing. */
  lemma RemoveOnlyThat(items: seq<WishlistItem>, id: Id)
    ensures !HasId(Without(items, id), id)
    ensures forall x :: x in Without(items, id) <==> x in items && x.id != id
    ensures !HasId(items, id) ==> Without(items, id) == items
  {
    WithoutMembers(items, id);
    var r := Without(items, id);
    assert !HasId(r, id) by {
      forall k | 0 <= k < |r| ensures r[k].id != id {
        assert r[k] in r;
      }
    }
    if !HasId(items, id) {
      WithoutAbsent(items, id);
    }
  }

  lemma {:induction false} WithoutAbsent(items: seq<WishlistItem>, id: Id)
    requires !HasId(items, id)
    ensures Without(items, id) == items
  {
    if items != [] {
      assert items[0].id != id;
      assert !HasId(items[1..], id) by {
        forall k | 0 <= k < |items[1..]| ensures items[1..][k].id != id {
          assert items[1..][k] == items[k + 1];
        }
      }
      WithoutAbsent(items[1..], id);
    }
  }

  /** Saving a product not yet on the list and then removing it restores
      the list. */
  lemma AddThenRemove(items: seq<WishlistItem>, product: WishlistItem)
    requires !HasId(items, product.id)
    ensures Without(Added(items, product), product.id) == items
  {
    RemoveOnlyThat(items, product.id);
    AppendWithout(items, product);
  }

  lemma {:induction false} AppendWithout(items: seq<WishlistItem>, product: WishlistItem)
    ensures Without(items + [product], product.id) == Without(items, product.id)
  {
    if items == [] {
      assert [] + [product] == [product];
    } else {
      assert (items + [product])[1..] == items[1..] + [product];
      AppendWithout(items[1..], product);
    }
  }

  lemma {:induction false} WithoutUnique(items: seq<WishlistItem>, id: Id)
    requires UniqueIds(items)
    ensures UniqueIds(Without(items, id))
  {
    if items != [] {
      WithoutUnique(items[1..], id);
      WithoutMembers(items[1..], id);
      if items[0].id != id {
        var r := Without(items, id);
        forall j | 1 <= j < |r| ensures r[j].id != items[0].id {
          assert r[j] in Without(items[1..], id);
          assert r[j] in items[1..];
        }
      }
    }
  }

  /** The provider's state: `wishlistItems`, `isInitialized` and the
      "wishlist" slot. A failed write leaves the slot as it was. */
  class Wishlist {
    var items: seq<WishlistItem>
    var isInitialized: bool
    var slot: Snapshot<WishlistItem>

    constructor (saved: Snapshot<WishlistItem>)
      ensures items == [] && !isInitialized && slot == saved
    {
      items := [];
      isInitialized := false;
      slot := saved;
    }

    /** The load effect, then the save effect it triggers. `writeOk` says
        whether the storage write succeeds. */
    method Mount(writeOk: bool)
      modifies this
      ensures isInitialized
      ensures items == Load(old(items), old(slot))
      ensures writeOk ==> slot == Items(items)
      ensures !writeOk ==> slot == old(slot)
    {
      items := Load(items, slot);
      isInitialized := true;
      Save(writeOk);
    }

    /** The save effect. */
    method Save(writeOk: bool)
      modifies this`slot
      ensures isInitialized && writeOk ==> slot == Items(items)
      ensures !(isInitialized && writeOk) ==> slot == old(slot)
    {
      if !isInitialized {
        return;
      }
      if writeOk {
        slot := Items(items);
      }
    }

    /** React re-runs the save effect only when a new array is set: adding a
        product already saved returns the same array and writes nothing. */
    method AddToWishlist(product: WishlistItem, writeOk: bool)
      modifies this`items, this`slot
      ensures items == Added(old(items), product)
      ensures HasId(old(items), product.id) ==> slot == old(slot)
      ensures !HasId(old(items), product.id) && isInitialized && writeOk ==> slot == Items(items)
      ensures !(isInitialized && writeOk) ==> slot == old(slot)
    {
      if HasId(items, product.id) {
        return;
      }
      items := items + [product];
      Save(writeOk);
    }

    method RemoveFromWishlist(id: Id, writeOk: bool)
      modifies this`items, this`slot
      ensures items == Without(old(items), id)
      ensures isInitialized && writeOk ==> slot == Items(items)
      ensures !(isInitialized && writeOk) ==> slot == old(slot)
    {
      items := Without(items, id);
      Save(writeOk);
    }

    method ClearWishlist(writeOk: bool)
      modifies this`items, this`slot
      ensures items == []
      ensures isInitialized && writeOk ==> slot == Items([])
      ensures !(isInitialized && writeOk) ==> slot == old(slot)
    {
      items := [];
      Save(writeOk);
    }

    predicate IsInWishlist(id: Id)
      reads this
    {
      HasId(items, id)
    }

    /** `totalItems`: the number of saved products, distinct ids included. */
    function TotalItems(): (r: nat)
      reads this
      ensures r == |items|
      ensures r == 0 <==> forall id :: !IsInWishlist(id)
    {
      if items != [] then
        assert IsInWishlist(items[0].id);
        |items|
      else |items|
    }
  }
}
