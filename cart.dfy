/**
 * The shopping cart: a list of entries keyed by product key, each holding a
 * copy of the catalog entry and a quantity. Adding a known product either
 * bumps its entry or appends a fresh one; an unknown key is ignored.
 */
module Cart {
  import opened Wrappers
  import opened Seqs
  import opened Catalog

  /** A cart entry: the product key, the catalog fields copied when it was first added, and a quantity. */
  datatype CartItem = CartItem(id: string, name: string, price: nat, unit: string, description: string, quantity: nat)

  /** The entry for a product added for the first time. */
  function NewItem(id: string, product: Product): CartItem {
    CartItem(id, product.name, product.price, product.unit, product.description, 1)
  }

  /** The test `find` applies to locate a product's entry. */
  function HasProductId(id: string): CartItem -> bool {
    (item: CartItem) => item.id == id
  }

  /** The cart count: the quantities of all entries added up. */
  function TotalQuantity(items: seq<CartItem>): nat {
    if |items| == 0 then 0 else items[0].quantity + TotalQuantity(items[1..])
  }

  /** No two entries share a product key. */
  ghost predicate DistinctIds(items: seq<CartItem>) {
    forall i, j :: 0 <= i < j < |items| ==> items[i].id != items[j].id
  }

  /** The entry carries a catalog product's fields and a positive quantity. */
  ghost predicate CopiesCatalog(item: CartItem) {
    && item.id in Products
    && NewItem(item.id, Products[item.id]) == item.(quantity := 1)
    && item.quantity >= 1
  }

  /** Appending an entry adds its quantity to the count. */
  lemma {:induction false} TotalQuantityAppend(items: seq<CartItem>, x: CartItem)
    ensures TotalQuantity(items + [x]) == TotalQuantity(items) + x.quantity
  {
    if |items| > 0 {
      assert (items + [x])[1..] == items[1..] + [x];
      TotalQuantityAppend(items[1..], x);
    }
  }

  /** Raising one entry's quantity by one raises the count by one. */
  lemma {:induction false} TotalQuantityIncrement(items: seq<CartItem>, k: nat)
    requires k < |items|
    ensures TotalQuantity(items[k := items[k].(quantity := items[k].quantity + 1)]) == TotalQuantity(items) + 1
  {
    var bumped := items[k := items[k].(quantity := items[k].quantity + 1)];
    if k > 0 {
      assert bumped[1..] == items[1..][k - 1 := items[1..][k - 1].(quantity := items[1..][k - 1].quantity + 1)];
      TotalQuantityIncrement(items[1..], k - 1);
    } else {
      assert bumped[1..] == items[1..];
    }
  }

  /** When every entry has a positive quantity, the count is at least the number of entries. */
  lemma {:induction false} TotalQuantityAtLeastLength(items: seq<CartItem>)
    ensures (forall i :: 0 <= i < |items| ==> items[i].quantity >= 1) ==> TotalQuantity(items) >= |items|
  {
    if |items| > 0 {
      assert forall i :: 0 <= i < |items[1..]| ==> items[1..][i] == items[i + 1];
      TotalQuantityAtLeastLength(items[1..]);
    }
  }

  class ShoppingCart {
    var items: seq<CartItem>

    /** One entry per product key, each a catalog copy with a positive quantity. */
    ghost predicate Valid()
      reads this
    {
      DistinctIds(items) && forall i :: 0 <= i < |items| ==> CopiesCatalog(items[i])
    }

    /** The cart starts empty. */
    constructor ()
      ensures Valid() && items == []
    {
      items := [];
    }

    /** The number shown on the cart badge. */
    function Count(): (n: nat)
      reads this
      ensures Valid() ==> n >= |items|
      ensures items == [] ==> n == 0
    {
      TotalQuantityAtLeastLength(items);
      TotalQuantity(items)
    }

    /** Adds one unit of the catalog product `productId`; an unknown key changes nothing. */
    method AddToCart(productId: string)
      requires Valid()
      modifies this
      ensures Valid()
      ensures productId !in Products ==> items == old(items)
      ensures productId in Products ==> Count() == old(Count()) + 1
      ensures forall k :: 0 <= k < |old(items)| && old(items)[k].id == productId ==>
        items == old(items)[k := old(items)[k].(quantity := old(items)[k].quantity + 1)]
      ensures productId in Products && NoMatch(old(items), HasProductId(productId)) ==>
        items == old(items) + [NewItem(productId, Products[productId])]
    {
      if productId !in Products {
        return;
      }
      var product := Products[productId];
      match FindIndex(items, HasProductId(productId))
      case Some(k) =>
        TotalQuantityIncrement(items, k);
        items := items[k := items[k].(quantity := items[k].quantity + 1)];
      case None =>
        TotalQuantityAppend(items, NewItem(productId, product));
        items := items + [NewItem(productId, product)];
    }
  }
}
