/**
 * The cart of the storefront as a value: an ordered sequence of line items,
 * and the pure transformations the store's four actions compute from it
 * (merge-or-append, filter, absolute quantity update, clear) together with
 * the item count derived from it.
 */
module CartItems {

  datatype Option<T> = None | Some(value: T)

  /** The part of a catalogue product the store reads when it is added. */
  datatype Product = Product(id: int, title: string, price: real, thumbnail: string)

  /** One line of the cart. `price` and `thumbnail` are carried, never computed with. */
  datatype CartItem = CartItem(id: int, title: string, price: real, thumbnail: string, quantity: int)

  type Cart = seq<CartItem>

  /** Quantity used by `addToCart` when the caller passes none. */
  const DefaultQuantity: int := 1

  // ---------------------------------------------------------------------------
  // Invariants of the cart
  // ---------------------------------------------------------------------------

  ghost predicate HasId(items: Cart, id: int) {
    exists i :: 0 <= i < |items| && items[i].id == id
  }

  /** No two line items share a product id. */
  ghost predicate UniqueIds(items: Cart) {
    forall i, j :: 0 <= i < j < |items| ==> items[i].id != items[j].id
  }

  /** Every line item in the cart has a quantity of at least one. */
  ghost predicate AllPositive(items: Cart) {
    forall i :: 0 <= i < |items| ==> items[i].quantity >= 1
  }

  ghost predicate WellFormed(items: Cart) {
    UniqueIds(items) && AllPositive(items)
  }

  lemma HasIdCons(x: CartItem, items: Cart, id: int)
    ensures HasId([x] + items, id) <==> x.id == id || HasId(items, id)
  {
    var s := [x] + items;
    assert s[0] == x;
    if HasId(items, id) {
      var i :| 0 <= i < |items| && items[i].id == id;
      assert s[i + 1] == items[i];
    }
    if HasId(s, id) && x.id != id {
      var i :| 0 <= i < |s| && s[i].id == id;
      assert items[i - 1] == s[i];
    }
  }

  // ---------------------------------------------------------------------------
  // The array operations the store uses
  // ---------------------------------------------------------------------------

  /** `items.find(item => item.id === id)`: the first line item with that id. */
  function Find(items: Cart, id: int): (r: Option<CartItem>)
    ensures r.None? <==> !HasId(items, id)
    ensures r.Some? ==> r.value in items && r.value.id == id
    ensures r.Some? ==> exists k :: 0 <= k < |items| && items[k] == r.value && !HasId(items[..k], id)
    ensures r.Some? && UniqueIds(items) ==>
      forall i :: 0 <= i < |items| && items[i].id == id ==> items[i] == r.value
  {
    if items == [] then None
    else if items[0].id == id then
      assert items[..0] == [];
      Some(items[0])
    else
      var r := Find(items[1..], id);
      assert r.Some? ==> exists k :: 0 <= k < |items| && items[k] == r.value && !HasId(items[..k], id) by {
        if r.Some? {
          var k :| 0 <= k < |items[1..]| && items[1..][k] == r.value && !HasId(items[1..][..k], id);
          assert items[..k + 1] == [items[0]] + items[1..][..k];
          HasIdCons(items[0], items[1..][..k], id);
          assert items[k + 1] == r.value;
        }
      }
      assert r.Some? ==> forall i :: 1 <= i < |items| && items[i].id == id ==> items[i] == items[1..][i - 1];
      assert !HasId(items[1..], id) ==> !HasId(items, id) by {
        if HasId(items, id) {
          var i :| 0 <= i < |items| && items[i].id == id;
          assert items[1..][i - 1].id == id;
        }
      }
      r
  }

  /** `items.map(f)`: the same line items, each replaced by its image under `f`. */
  function MapItems(items: Cart, f: CartItem -> CartItem): (r: Cart)
    ensures |r| == |items|
    ensures forall i :: 0 <= i < |items| ==> r[i] == f(items[i])
  {
    if items == [] then [] else [f(items[0])] + MapItems(items[1..], f)
  }

  // ---------------------------------------------------------------------------
  // The actions, as functions of the old item sequence
  // ---------------------------------------------------------------------------

  /** The line item `addToCart` appends: the product's snapshot with the given quantity. */
  function NewItem(product: Product, quantity: int): (r: CartItem)
    ensures r.id == product.id && r.title == product.title
    ensures r.price == product.price && r.thumbnail == product.thumbnail
    ensures r.quantity == quantity
  {
    CartItem(product.id, product.title, product.price, product.thumbnail, quantity)
  }

  /**
   * `addToCart`: when a line item with the product's id exists, every such
   * item has `quantity` added to its own; otherwise a new line item built from
   * the product is appended at the end.
   */
  function AddToCart(items: Cart, product: Product, quantity: int := DefaultQuantity): (r: Cart)
    ensures |items| <= |r| <= |items| + 1
    ensures HasId(r, product.id)
    ensures forall id :: HasId(r, id) <==> HasId(items, id) || id == product.id
  {
    match Find(items, product.id)
    case Some(_) =>
      var r := MapItems(items, (item: CartItem) => if item.id == product.id then item.(quantity := item.quantity + quantity) else item);
      assert forall id :: HasId(r, id) ==> HasId(items, id) by {
        forall id | HasId(r, id) ensures HasId(items, id) {
          var i :| 0 <= i < |r| && r[i].id == id;
          assert items[i].id == id;
        }
      }
      assert forall id :: HasId(items, id) ==> HasId(r, id) by {
        forall id | HasId(items, id) ensures HasId(r, id) {
          var i :| 0 <= i < |items| && items[i].id == id;
          assert r[i].id == id;
        }
      }
      r
    case None =>
      var r := items + [NewItem(product, quantity)];
      assert r[|items|].id == product.id;
      assert forall id :: HasId(items, id) ==> HasId(r, id) by {
        forall id | HasId(items, id) ensures HasId(r, id) {
          var i :| 0 <= i < |items| && items[i].id == id;
          assert r[i].id == id;
        }
      }
      r
  }

  /** `removeFromCart`: `items.filter(item => item.id !== id)`. */
  function RemoveFromCart(items: Cart, id: int): (r: Cart)
    ensures |r| <= |items|
    ensures !HasId(r, id)
  {
    if items == [] then []
    else
      var rest := RemoveFromCart(items[1..], id);
      if items[0].id == id then rest
      else
        var r := [items[0]] + rest;
        assert forall j :: 1 <= j < |r| ==> r[j] == rest[j - 1];
        r
  }

  /** The kept line items are exactly the old ones whose id differs. */
  lemma {:induction false} RemoveMembers(items: Cart, id: int)
    ensures forall x :: x in RemoveFromCart(items, id) <==> x in items && x.id != id
  {
    if items != [] {
      RemoveMembers(items[1..], id);
      assert forall x :: x in items <==> x == items[0] || x in items[1..];
    }
  }

  /** The `quantity > 0` branch of `updateQuantity`: every line item with that id gets exactly `quantity`. */
  function SetQuantity(items: Cart, id: int, quantity: int): (r: Cart)
    ensures |r| == |items|
    ensures forall i :: 0 <= i < |items| ==>
      && r[i].id == items[i].id && r[i].title == items[i].title
      && r[i].price == items[i].price && r[i].thumbnail == items[i].thumbnail
      && r[i].quantity == (if items[i].id == id then quantity else items[i].quantity)
  {
    MapItems(items, (item: CartItem) => if item.id == id then item.(quantity := quantity) else item)
  }

  /**
   * `updateQuantity`: a non-positive quantity removes the line item; a
   * positive one replaces its quantity. Either way the quantity invariant is
   * kept, and no id is introduced.
   */
  function UpdateQuantity(items: Cart, id: int, quantity: int): (r: Cart)
    ensures quantity <= 0 ==> r == RemoveFromCart(items, id)
    ensures quantity > 0 ==> |r| == |items|
    ensures AllPositive(items) ==> AllPositive(r)
    ensures forall x :: HasId(r, x) ==> HasId(items, x)
  {
    if quantity <= 0 then
      var r := RemoveFromCart(items, id);
      RemoveMembers(items, id);
      assert forall x :: HasId(r, x) ==> HasId(items, x) by {
        forall x | HasId(r, x) ensures HasId(items, x) {
          var i :| 0 <= i < |r| && r[i].id == x;
          assert r[i] in items;
          var j :| 0 <= j < |items| && items[j] == r[i];
        }
      }
      assert AllPositive(items) ==> AllPositive(r) by {
        if AllPositive(items) {
          forall i | 0 <= i < |r| ensures r[i].quantity >= 1 {
            assert r[i] in items;
            var j :| 0 <= j < |items| && items[j] == r[i];
          }
        }
      }
      r
    else
      var r := SetQuantity(items, id, quantity);
      assert forall x :: HasId(r, x) ==> HasId(items, x) by {
        forall x | HasId(r, x) ensures HasId(items, x) {
          var i :| 0 <= i < |r| && r[i].id == x;
          assert items[i].id == x;
        }
      }
      r
  }

  // ---------------------------------------------------------------------------
  // The item count
  // ---------------------------------------------------------------------------

  /** `items.reduce((total, item) => total + item.quantity, acc)`: a left fold. */
  function Reduce(items: Cart, acc: int): (r: int)
    ensures r == acc + Sum(items)
  {
    if items == [] then acc else Reduce(items[1..], acc + items[0].quantity)
  }

  /** `useCartCount`: the reduction started at 0. */
  function CartCount(items: Cart): (n: int)
    ensures n == Sum(items)
  {
    Reduce(items, 0)
  }

  /** Reference definition of the count: the sum of the quantities. */
  ghost function Sum(items: Cart): int {
    if items == [] then 0 else items[0].quantity + Sum(items[1..])
  }

  lemma {:induction false} SumConcat(a: Cart, b: Cart)
    ensures Sum(a + b) == Sum(a) + Sum(b)
  {
    if a == [] {
      assert a + b == b;
    } else {
      assert (a + b)[1..] == a[1..] + b;
      SumConcat(a[1..], b);
    }
  }

  /** Splits the sum at position `i`: the items before it, the item, the items after it. */
  lemma SumAt(items: Cart, i: int)
    requires 0 <= i < |items|
    ensures Sum(items) == Sum(items[..i]) + items[i].quantity + Sum(items[i + 1..])
  {
    assert items == items[..i] + [items[i]] + items[i + 1..];
    SumConcat(items[..i] + [items[i]], items[i + 1..]);
    SumConcat(items[..i], [items[i]]);
  }

  /** With every quantity at least one, the count is at least the number of lines, and is 0 exactly for the empty cart. */
  lemma {:induction false} CountBounds(items: Cart)
    ensures AllPositive(items) ==> CartCount(items) >= |items|
    ensures AllPositive(items) ==> (CartCount(items) == 0 <==> items == [])
  {
    if items != [] {
      CountBounds(items[1..]);
    }
  }

  // ---------------------------------------------------------------------------
  // addToCart
  // ---------------------------------------------------------------------------

  /** Re-adding a product that is in the cart adds to its quantity in place and changes nothing else. */
  lemma AddExisting(items: Cart, product: Product, quantity: int, i: int)
    requires UniqueIds(items)
    requires 0 <= i < |items| && items[i].id == product.id
    ensures var r := AddToCart(items, product, quantity);
      && |r| == |items|
      && r[i].quantity == items[i].quantity + quantity
      && r[i].id == items[i].id && r[i].title == items[i].title
      && r[i].price == items[i].price && r[i].thumbnail == items[i].thumbnail
      && forall j :: 0 <= j < |items| && j != i ==> r[j] == items[j]
  {
    assert HasId(items, product.id);
  }

  /** Adding a product that is not in the cart appends exactly one line built from it. */
  lemma AddNew(items: Cart, product: Product, quantity: int)
    requires !HasId(items, product.id)
    ensures var r := AddToCart(items, product, quantity);
      && |r| == |items| + 1
      && r[..|items|] == items
      && r[|items|].id == product.id && r[|items|].title == product.title
      && r[|items|].price == product.price && r[|items|].thumbnail == product.thumbnail
      && r[|items|].quantity == quantity
  {
  }

  lemma AddKeepsUnique(items: Cart, product: Product, quantity: int)
    requires UniqueIds(items)
    ensures UniqueIds(AddToCart(items, product, quantity))
  {
    var r := AddToCart(items, product, quantity);
    if HasId(items, product.id) {
      forall i, j | 0 <= i < j < |r| ensures r[i].id != r[j].id {
        assert r[i].id == items[i].id && r[j].id == items[j].id;
      }
    } else {
      forall i, j | 0 <= i < j < |r| ensures r[i].id != r[j].id {
        if j == |items| {
          assert r[i] == items[i];
        } else {
          assert r[i] == items[i] && r[j] == items[j];
        }
      }
    }
  }

  /** With a positive quantity, adding keeps both invariants of the cart. */
  lemma AddKeepsWellFormed(items: Cart, product: Product, quantity: int)
    requires WellFormed(items)
    requires quantity > 0
    ensures WellFormed(AddToCart(items, product, quantity))
  {
    AddKeepsUnique(items, product, quantity);
    var r := AddToCart(items, product, quantity);
    forall i | 0 <= i < |r| ensures r[i].quantity >= 1 {
      if i < |items| {
        assert r[i].quantity >= items[i].quantity;
      }
    }
  }

  /** Adding `quantity` of a product raises the count by exactly `quantity`. */
  lemma AddCount(items: Cart, product: Product, quantity: int)
    requires UniqueIds(items)
    ensures CartCount(AddToCart(items, product, quantity)) == CartCount(items) + quantity
  {
    var r := AddToCart(items, product, quantity);
    if HasId(items, product.id) {
      var i :| 0 <= i < |items| && items[i].id == product.id;
      AddExisting(items, product, quantity, i);
      SumAt(items, i);
      SumAt(r, i);
      assert r[..i] == items[..i];
      assert r[i + 1..] == items[i + 1..];
    } else {
      SumConcat(items, [NewItem(product, quantity)]);
    }
  }

  // ---------------------------------------------------------------------------
  // removeFromCart
  // ---------------------------------------------------------------------------

  /** Removing an id that is not in the cart changes nothing. */
  lemma {:induction false} RemoveAbsent(items: Cart, id: int)
    requires !HasId(items, id)
    ensures RemoveFromCart(items, id) == items
  {
    if items != [] {
      RemoveAbsent(items[1..], id);
    }
  }

  /** Filtering distributes over concatenation, so the kept items keep their relative order. */
  lemma {:induction false} RemoveConcat(a: Cart, b: Cart, id: int)
    ensures RemoveFromCart(a + b, id) == RemoveFromCart(a, id) + RemoveFromCart(b, id)
  {
    if a == [] {
      assert a + b == b;
    } else {
      assert (a + b)[1..] == a[1..] + b;
      RemoveConcat(a[1..], b, id);
    }
  }

  /** In a cart with unique ids, removing the id held at position `i` deletes exactly that position. */
  lemma RemoveAt(items: Cart, id: int, i: int)
    requires UniqueIds(items)
    requires 0 <= i < |items| && items[i].id == id
    ensures RemoveFromCart(items, id) == items[..i] + items[i + 1..]
  {
    assert items == items[..i] + [items[i]] + items[i + 1..];
    RemoveConcat(items[..i] + [items[i]], items[i + 1..], id);
    RemoveConcat(items[..i], [items[i]], id);
    assert !HasId(items[..i], id);
    assert !HasId(items[i + 1..], id);
    RemoveAbsent(items[..i], id);
    RemoveAbsent(items[i + 1..], id);
    assert RemoveFromCart([items[i]], id) == [];
  }

  /** Removing twice is the same as removing once. */
  lemma RemoveIdempotent(items: Cart, id: int)
    ensures RemoveFromCart(RemoveFromCart(items, id), id) == RemoveFromCart(items, id)
  {
    RemoveAbsent(RemoveFromCart(items, id), id);
  }

  /** Removal keeps ids unique, whatever the quantities. */
  lemma RemoveKeepsUnique(items: Cart, id: int)
    requires UniqueIds(items)
    ensures UniqueIds(RemoveFromCart(items, id))
  {
    if HasId(items, id) {
      var i :| 0 <= i < |items| && items[i].id == id;
      RemoveAt(items, id, i);
      var r := RemoveFromCart(items, id);
      forall a, b | 0 <= a < b < |r| ensures r[a].id != r[b].id {
        var a', b' := if a < i then a else a + 1, if b < i then b else b + 1;
        assert r[a] == items[a'] && r[b] == items[b'];
      }
    } else {
      RemoveAbsent(items, id);
    }
  }

  lemma RemoveKeepsWellFormed(items: Cart, id: int)
    requires WellFormed(items)
    ensures WellFormed(RemoveFromCart(items, id))
  {
    RemoveKeepsUnique(items, id);
    RemoveMembers(items, id);
    var r := RemoveFromCart(items, id);
    forall a | 0 <= a < |r| ensures r[a].quantity >= 1 {
      assert r[a] in items;
      var j :| 0 <= j < |items| && items[j] == r[a];
    }
  }

  /** Removing a line lowers the count by that line's quantity. */
  lemma RemoveCount(items: Cart, id: int, i: int)
    requires UniqueIds(items)
    requires 0 <= i < |items| && items[i].id == id
    ensures CartCount(RemoveFromCart(items, id)) == CartCount(items) - items[i].quantity
  {
    RemoveAt(items, id, i);
    SumAt(items, i);
    SumConcat(items[..i], items[i + 1..]);
  }

  // ---------------------------------------------------------------------------
  // updateQuantity
  // ---------------------------------------------------------------------------

  /** A positive update sets the line's quantity to exactly the given value and changes nothing else. */
  lemma UpdateAt(items: Cart, id: int, quantity: int, i: int)
    requires UniqueIds(items)
    requires quantity > 0
    requires 0 <= i < |items| && items[i].id == id
    ensures var r := UpdateQuantity(items, id, quantity);
      && |r| == |items|
      && r[i].quantity == quantity
      && r[i].id == items[i].id && r[i].title == items[i].title
      && r[i].price == items[i].price && r[i].thumbnail == items[i].thumbnail
      && forall j :: 0 <= j < |items| && j != i ==> r[j] == items[j]
  {
  }

  /** Updating an id that is not in the cart changes nothing, whatever the quantity. */
  lemma UpdateAbsent(items: Cart, id: int, quantity: int)
    requires !HasId(items, id)
    ensures UpdateQuantity(items, id, quantity) == items
  {
    if quantity <= 0 {
      RemoveAbsent(items, id);
    } else {
      var r := UpdateQuantity(items, id, quantity);
      forall j | 0 <= j < |items| ensures r[j] == items[j] {
        assert items[j].id != id;
      }
    }
  }

  /** Updating keeps ids unique, whatever the quantities. */
  lemma UpdateKeepsUnique(items: Cart, id: int, quantity: int)
    requires UniqueIds(items)
    ensures UniqueIds(UpdateQuantity(items, id, quantity))
  {
    if quantity <= 0 {
      RemoveKeepsUnique(items, id);
    } else {
      var r := UpdateQuantity(items, id, quantity);
      forall a, b | 0 <= a < b < |r| ensures r[a].id != r[b].id {
        assert r[a].id == items[a].id && r[b].id == items[b].id;
      }
    }
  }

  lemma UpdateKeepsWellFormed(items: Cart, id: int, quantity: int)
    requires WellFormed(items)
    ensures WellFormed(UpdateQuantity(items, id, quantity))
  {
    UpdateKeepsUnique(items, id, quantity);
  }

  /** A positive update replaces the old quantity of the line in the count. */
  lemma UpdateCount(items: Cart, id: int, quantity: int, i: int)
    requires UniqueIds(items)
    requires quantity > 0
    requires 0 <= i < |items| && items[i].id == id
    ensures CartCount(UpdateQuantity(items, id, quantity)) == CartCount(items) - items[i].quantity + quantity
  {
    var r := UpdateQuantity(items, id, quantity);
    UpdateAt(items, id, quantity, i);
    SumAt(items, i);
    SumAt(r, i);
    assert r[..i] == items[..i];
    assert r[i + 1..] == items[i + 1..];
  }

  /**
   * A session: add two of product 1 to an empty cart, add three more, set the
   * quantity to one, then to zero.
   */
  lemma {:induction false} SessionScenario(p: Product)
    requires p.id == 1
    ensures var c1 := AddToCart([], p, 2);
      && c1 == [NewItem(p, 2)] && CartCount(c1) == 2
      && var c2 := AddToCart(c1, p, 3);
      && c2 == [NewItem(p, 5)] && CartCount(c2) == 5
      && var c3 := UpdateQuantity(c2, 1, 1);
      && c3 == [NewItem(p, 1)]
      && UpdateQuantity(c3, 1, 0) == []
  {
    var c1 := AddToCart([], p, 2);
    assert c1 == [NewItem(p, 2)];
    assert c1[1..] == [];
    assert Sum(c1) == c1[0].quantity + Sum(c1[1..]);
    AddExisting(c1, p, 3, 0);
    var c2 := AddToCart(c1, p, 3);
    assert c2 == [NewItem(p, 5)];
    AddCount(c1, p, 3);
    UpdateAt(c2, 1, 1, 0);
    var c3 := UpdateQuantity(c2, 1, 1);
    assert c3 == [NewItem(p, 1)];
    RemoveAt(c3, 1, 0);
  }
}
