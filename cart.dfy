/** The shopping cart entity (shopping-cart/model/ShoppingCart.java): a
    product -> quantity map changed in place by `merge` and `remove`. */
module Cart {
  import opened Common

  datatype CartState = ACTIVE | DEACTIVATE

  /** `products.merge(id, q, Long::sum)`: an absent id gets `q`, a present one
      its old quantity plus `q`; every other entry is kept. */
  function Merged(products: map<ProductId, Long>, id: ProductId, q: Long): (m: map<ProductId, Long>)
    ensures m.Keys == products.Keys + {id}
    ensures id !in products ==> m[id] == q
    ensures id in products && -0x8000_0000_0000_0000 <= products[id] + q < 0x8000_0000_0000_0000 ==>
              m[id] == products[id] + q
    ensures forall k :: k in products && k != id ==> m[k] == products[k]
  {
    products[id := if id in products then LongSum(products[id], q) else q]
  }

  /** The cart after `productIds.forEach(products::remove)`: every listed id is
      gone, unknown ids are ignored, the rest is kept. */
  function Without(products: map<ProductId, Long>, ids: seq<ProductId>): (m: map<ProductId, Long>)
    ensures forall k :: k in m <==> k in products && k !in ids
    ensures forall k :: k in m ==> m[k] == products[k]
  {
    map k | k in products && k !in ids :: products[k]
  }

  /** Every entry of a request, merged in iteration order. */
  function MergeAll(products: map<ProductId, Long>, entries: seq<(ProductId, Long)>): map<ProductId, Long>
  {
    if |entries| == 0 then products
    else
      var last := entries[|entries| - 1];
      Merged(MergeAll(products, entries[..|entries| - 1]), last.0, last.1)
  }

  /** One more entry merged at the end. */
  lemma MergeAllStep(products: map<ProductId, Long>, entries: seq<(ProductId, Long)>, i: nat)
    requires i < |entries|
    ensures MergeAll(products, entries[..i + 1]) == Merged(MergeAll(products, entries[..i]), entries[i].0, entries[i].1)
  {
    assert entries[..i + 1][..i] == entries[..i];
  }

  /** The order-independent reference: each requested quantity is added to
      what the cart held for that product. */
  function Summed(products: map<ProductId, Long>, request: map<ProductId, Long>): (m: map<ProductId, Long>)
    ensures m.Keys == products.Keys + request.Keys
  {
    map k | k in products.Keys + request.Keys ::
      if k !in request then products[k]
      else if k in products then LongSum(products[k], request[k])
      else request[k]
  }

  /** Merging a request's entries, in any iteration order of the request map,
      sums quantities per product. */
  lemma {:induction false} MergeAllSummed(products: map<ProductId, Long>, entries: seq<(ProductId, Long)>,
                                          request: map<ProductId, Long>)
    requires IsEntrySet(entries, request)
    ensures MergeAll(products, entries) == Summed(products, request)
  {
    if |entries| == 0 {
      assert request == map[];
    } else {
      var last := entries[|entries| - 1];
      var rest := request - {last.0};
      EntrySetFront(entries, request);
      MergeAllSummed(products, entries[..|entries| - 1], rest);
      assert request == rest[last.0 := last.1];
      SummedPut(products, rest, last.0, last.1);
    }
  }

  /** Without its last entry, an entry list enumerates the map without that key. */
  lemma EntrySetFront(entries: seq<(ProductId, Long)>, request: map<ProductId, Long>)
    requires IsEntrySet(entries, request) && |entries| > 0
    ensures IsEntrySet(entries[..|entries| - 1], request - {entries[|entries| - 1].0})
    ensures entries[|entries| - 1].0 in request && request[entries[|entries| - 1].0] == entries[|entries| - 1].1
  {
    var front, rest := entries[..|entries| - 1], request - {entries[|entries| - 1].0};
    forall k | k in rest ensures exists i :: 0 <= i < |front| && front[i].0 == k {
      var i :| 0 <= i < |entries| && entries[i].0 == k;
      assert front[i].0 == k;
    }
  }

  /** One more requested product, merged into the summed cart. */
  lemma SummedPut(products: map<ProductId, Long>, request: map<ProductId, Long>, id: ProductId, q: Long)
    requires id !in request
    ensures Merged(Summed(products, request), id, q) == Summed(products, request[id := q])
  {
  }

  /** Adding a product the cart did not hold, then removing it, restores the cart. */
  lemma RemoveUndoesAdd(products: map<ProductId, Long>, id: ProductId, q: Long)
    requires id !in products
    ensures Without(Merged(products, id, q), [id]) == products
  {
  }

  /** Removing the same ids twice is the same as removing them once. */
  lemma WithoutIdempotent(products: map<ProductId, Long>, ids: seq<ProductId>)
    ensures Without(Without(products, ids), ids) == Without(products, ids)
  {
  }

  /** The JPA entity, loaded from and saved to the cart repository. */
  class ShoppingCart {
    var products: map<ProductId, Long>
    var username: string
    var state: CartState

    constructor(username: string, state: CartState, products: map<ProductId, Long>)
      ensures this.username == username && this.state == state && this.products == products
    {
      this.username := username;
      this.state := state;
      this.products := products;
    }

    method AddProduct(productId: ProductId, quantity: Long)
      modifies this
      ensures products == Merged(old(products), productId, quantity)
      ensures username == old(username) && state == old(state)
    {
      if productId in products {
        products := products[productId := LongSum(products[productId], quantity)];
      } else {
        products := products[productId := quantity];
      }
    }

    method RemoveProducts(productIds: seq<ProductId>)
      modifies this
      ensures products == Without(old(products), productIds)
      ensures username == old(username) && state == old(state)
    {
      for i := 0 to |productIds|
        invariant products == Without(old(products), productIds[..i])
        invariant username == old(username) && state == old(state)
      {
        assert productIds[..i + 1] == productIds[..i] + [productIds[i]];
        products := products - {productIds[i]};
      }
      assert productIds[..|productIds|] == productIds;
    }
  }
}
