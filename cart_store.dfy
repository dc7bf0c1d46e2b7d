/**
 * The cart store: the object that owns the cart's `items` and whose four
 * actions replace that field with a value computed from the old one.
 */
module CartStore {
  import opened CartItems

  class Store {
    /** The store's only state; `useCartItems` reads it unchanged. */
    var items: Cart

    /** Unique ids and positive quantities. */
    ghost predicate Valid()
      reads this
    {
      WellFormed(items)
    }

    /** A store starts with an empty cart. */
    constructor ()
      ensures items == [] && Valid()
    {
      items := [];
    }

    /** `useCartCount`: the sum of the quantities of the line items. */
    function Count(): (n: int)
      reads this
      ensures n == Sum(items)
      ensures Valid() ==> n >= |items| && (n == 0 <==> items == [])
    {
      CountBounds(items);
      CartCount(items)
    }

    method AddToCart(product: Product, quantity: int := DefaultQuantity)
      modifies this
      ensures items == CartItems.AddToCart(old(items), product, quantity)
      ensures old(Valid()) && quantity > 0 ==> Valid()
      ensures old(UniqueIds(items)) ==> UniqueIds(items) && Count() == old(Count()) + quantity
    {
      ghost var before := items;
      items := CartItems.AddToCart(items, product, quantity);
      if WellFormed(before) && quantity > 0 {
        AddKeepsWellFormed(before, product, quantity);
      }
      if UniqueIds(before) {
        AddKeepsUnique(before, product, quantity);
        AddCount(before, product, quantity);
      }
    }

    method RemoveFromCart(productId: int)
      modifies this
      ensures items == CartItems.RemoveFromCart(old(items), productId)
      ensures !HasId(items, productId)
      ensures old(Valid()) ==> Valid()
      ensures old(UniqueIds(items)) ==> UniqueIds(items)
    {
      ghost var before := items;
      items := CartItems.RemoveFromCart(items, productId);
      if UniqueIds(before) {
        RemoveKeepsUnique(before, productId);
      }
      if WellFormed(before) {
        RemoveKeepsWellFormed(before, productId);
      }
    }

    method UpdateQuantity(productId: int, quantity: int)
      modifies this
      ensures items == CartItems.UpdateQuantity(old(items), productId, quantity)
      ensures old(Valid()) ==> Valid()
      ensures old(UniqueIds(items)) ==> UniqueIds(items)
    {
      ghost var before := items;
      if quantity <= 0 {
        RemoveFromCart(productId);
      } else {
        items := SetQuantity(items, productId, quantity);
      }
      if UniqueIds(before) {
        UpdateKeepsUnique(before, productId, quantity);
      }
      if WellFormed(before) {
        UpdateKeepsWellFormed(before, productId, quantity);
      }
    }

    method ClearCart()
      modifies this
      ensures items == [] && Valid() && Count() == 0
    {
      items := [];
    }
  }

  /**
   * A caller that replays a short session. It relies on the store's contracts
   * and on the lemmas of `CartItems` that describe the resulting carts.
   */
  method Session(p: Product)
    requires p.id == 1
  {
    var store := new Store();
    store.AddToCart(p, 2);
    assert store.items == [NewItem(p, 2)] by { AddNew([], p, 2); }
    assert store.Count() == 2;
    store.AddToCart(p, 3);
    assert store.items == [NewItem(p, 5)] by {
      var r := CartItems.AddToCart([NewItem(p, 2)], p, 3);
      AddExisting([NewItem(p, 2)], p, 3, 0);
      assert |r| == 1 && r[0] == NewItem(p, 5);
    }
    assert store.Count() == 5;
    store.UpdateQuantity(1, 1);
    assert store.items == [NewItem(p, 1)] by { UpdateAt([NewItem(p, 5)], 1, 1, 0); }
    store.UpdateQuantity(1, 0);
    assert store.items == [] by { RemoveAt([NewItem(p, 1)], 1, 0); }
    store.AddToCart(p);
    store.ClearCart();
    assert store.items == [];
  }
}
