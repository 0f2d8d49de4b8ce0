/** The cart service (shopping-cart/service/ShoppingCartServiceImpl.java):
    one cart per user name. Every writing operation runs in a transaction,
    so an operation that throws leaves the repository as it found it. */
module CartService {
  import opened Common
  import opened Cart

  /** What the repository holds for one user's cart. */
  datatype CartRecord = CartRecord(products: map<ProductId, Long>, state: CartState)

  /** The cart repository, keyed by user name (`findAllByUsername`). */
  type Carts = map<string, CartRecord>

  /** The exceptions the service throws. */
  datatype CartError =
    | NotAuthorizedUser                            // NotAuthorizedUserException
    | ShoppingCartNotFound                         // ShoppingCartNotFoundException
    | CartDeactivated                              // IllegalArgumentException
    | NonPositiveQuantity(productId: ProductId)    // IllegalArgumentException
    | ProductNotFound(missing: seq<ProductId>)     // ProductNotFoundException
    | WarehouseRejected                            // thrown by the warehouse call

  /** The warehouse's availability check on the cart's products, a remote
      call: true when it returns normally. */
  type Availability = map<ProductId, Long> -> bool

  /** `checkUser`: a null or blank user name is not authorised. */
  predicate Authorized(username: Option<string>)
  {
    username.Some? && !Blank(username.value)
  }

  /** `getOrCreateShoppingCartByUser`: the stored cart, or a new ACTIVE one
      with no products. */
  function GetOrCreate(carts: Carts, username: string): (c: CartRecord)
    ensures username in carts ==> c == carts[username]
    ensures username !in carts ==> c.state == ACTIVE && c.products == map[]
  {
    if username in carts then carts[username] else CartRecord(map[], ACTIVE)
  }

  /** The position of the first entry whose quantity is not positive. */
  function FirstNonPositive(entries: seq<(ProductId, Long)>): (r: Option<nat>)
    ensures r.Some? ==> r.value < |entries| && entries[r.value].1 <= 0
    ensures r.Some? ==> forall j :: 0 <= j < r.value ==> entries[j].1 > 0
    ensures r.None? <==> forall j :: 0 <= j < |entries| ==> entries[j].1 > 0
  {
    if |entries| == 0 then None
    else if entries[0].1 <= 0 then Some(0)
    else match FirstNonPositive(entries[1..])
      case None => None
      case Some(i) => Some(i + 1)
  }

  /** The listed ids the cart does not hold, in list order. */
  function Missing(products: map<ProductId, Long>, ids: seq<ProductId>): (r: seq<ProductId>)
    ensures forall x :: x in r <==> x in ids && x !in products
  {
    if |ids| == 0 then []
    else (if ids[0] in products then [] else [ids[0]]) + Missing(products, ids[1..])
  }

  /** The stream filter keeps list order and repeats: the missing ids of two
      lists one after the other are those of the first, then those of the
      second. */
  lemma {:induction false} MissingConcat(products: map<ProductId, Long>, a: seq<ProductId>, b: seq<ProductId>)
    ensures Missing(products, a + b) == Missing(products, a) + Missing(products, b)
    decreases |a|
  {
    if |a| == 0 {
      assert a + b == b;
    } else {
      var x := a[0];
      calc {
        Missing(products, a + b);
        (if x in products then [] else [x]) + Missing(products, (a + b)[1..]);
        { assert (a + b)[1..] == a[1..] + b; }
        (if x in products then [] else [x]) + Missing(products, a[1..] + b);
        { MissingConcat(products, a[1..], b); }
        (if x in products then [] else [x]) + (Missing(products, a[1..]) + Missing(products, b));
        ((if x in products then [] else [x]) + Missing(products, a[1..])) + Missing(products, b);
        Missing(products, a) + Missing(products, b);
      }
    }
  }

  /** With `MissingConcat`, this fixes `Missing` on every list: a single id
      is kept exactly when the cart lacks it. */
  lemma MissingSingle(products: map<ProductId, Long>, x: ProductId)
    ensures Missing(products, [x]) == if x in products then [] else [x]
  {
    assert [x][1..] == [];
  }

  /** The repository after `addProductToCart(username, request)`, the request
      map's entries listed in its iteration order. */
  function AddToCart(carts: Carts, username: Option<string>, entries: seq<(ProductId, Long)>,
                     warehouse: Availability): (r: Result<Carts, CartError>)
    ensures !Authorized(username) ==> r == Err(NotAuthorizedUser)
    ensures r.Ok? ==> Authorized(username) && GetOrCreate(carts, username.value).state == ACTIVE
    ensures r.Ok? ==> forall j :: 0 <= j < |entries| ==> entries[j].1 > 0
    ensures r.Ok? ==> r.value.Keys == carts.Keys + {username.value}
    ensures r.Ok? ==> forall u :: u in carts && u != username.value ==> r.value[u] == carts[u]
    ensures r.Ok? ==> r.value[username.value].state == ACTIVE && warehouse(r.value[username.value].products)
  {
    if !Authorized(username) then Err(NotAuthorizedUser)
    else
      var cart := GetOrCreate(carts, username.value);
      if cart.state.DEACTIVATE? then Err(CartDeactivated)
      else match FirstNonPositive(entries)
        case Some(i) => Err(NonPositiveQuantity(entries[i].0))
        case None =>
          var products := MergeAll(cart.products, entries);
          if !warehouse(products) then Err(WarehouseRejected)
          else Ok(carts[username.value := CartRecord(products, ACTIVE)])
  }

  /** The repository after `getShoppingCart(username)`: a first visit saves a
      new cart. */
  function GetCart(carts: Carts, username: Option<string>): (r: Result<Carts, CartError>)
    ensures r.Ok? <==> Authorized(username)
    ensures r.Err? ==> r.error == NotAuthorizedUser
    ensures r.Ok? ==> r.value.Keys == carts.Keys + {username.value}
    ensures r.Ok? ==> forall u :: u in carts ==> r.value[u] == carts[u]
  {
    if !Authorized(username) then Err(NotAuthorizedUser)
    else Ok(carts[username.value := GetOrCreate(carts, username.value)])
  }

  /** The repository after `deactivatingUserCart(username)`. */
  function Deactivate(carts: Carts, username: Option<string>): (r: Result<Carts, CartError>)
    ensures r.Ok? <==> Authorized(username) && username.value in carts
    ensures r.Ok? ==> r.value.Keys == carts.Keys && r.value[username.value].state == DEACTIVATE
    ensures r.Ok? ==> r.value[username.value].products == carts[username.value].products
    ensures r.Ok? ==> forall u :: u in carts && u != username.value ==> r.value[u] == carts[u]
  {
    if !Authorized(username) then Err(NotAuthorizedUser)
    else if username.value !in carts then Err(ShoppingCartNotFound)
    else Ok(carts[username.value := carts[username.value].(state := DEACTIVATE)])
  }

  /** The repository after `removeProductFromCart(username, productIds)`. */
  function RemoveFromCart(carts: Carts, username: Option<string>, ids: seq<ProductId>): (r: Result<Carts, CartError>)
    ensures r.Ok? ==> Authorized(username) && username.value in carts && carts[username.value].state == ACTIVE
    ensures r.Ok? ==> r.value.Keys == carts.Keys
    ensures r.Ok? ==> forall u :: u in carts && u != username.value ==> r.value[u] == carts[u]
    ensures r.Ok? ==> r.value[username.value].state == ACTIVE
  {
    if !Authorized(username) then Err(NotAuthorizedUser)
    else if username.value !in carts then Err(ShoppingCartNotFound)
    else
      var cart := carts[username.value];
      if cart.state.DEACTIVATE? then Err(CartDeactivated)
      else
        var missing := Missing(cart.products, ids);
        if missing != [] then Err(ProductNotFound(missing))
        else Ok(carts[username.value := cart.(products := Without(cart.products, ids))])
  }

  /** The repository after `changeQuantity(username, {productId, newQuantity})`. */
  function ChangeQuantity(carts: Carts, username: Option<string>, id: ProductId, newQuantity: Long): (r: Result<Carts, CartError>)
    ensures r.Ok? <==> Authorized(username) && username.value in carts && carts[username.value].state == ACTIVE
    ensures r.Ok? ==> r.value.Keys == carts.Keys
    ensures r.Ok? ==> forall u :: u in carts && u != username.value ==> r.value[u] == carts[u]
  {
    if !Authorized(username) then Err(NotAuthorizedUser)
    else if username.value !in carts then Err(ShoppingCartNotFound)
    else
      var cart := carts[username.value];
      if cart.state.DEACTIVATE? then Err(CartDeactivated)
      else if newQuantity > 0 then Ok(carts[username.value := cart.(products := cart.products[id := newQuantity])])
      else Ok(carts[username.value := cart.(products := cart.products - {id})])
  }

  /** A null or blank user name is rejected by every operation before any
      cart is looked up or created. */
  lemma BlankUserRejected(carts: Carts, username: Option<string>, entries: seq<(ProductId, Long)>,
                          warehouse: Availability, ids: seq<ProductId>, id: ProductId, q: Long)
    requires username.None? || Blank(username.value)
    ensures AddToCart(carts, username, entries, warehouse) == Err(NotAuthorizedUser)
    ensures GetCart(carts, username) == Err(NotAuthorizedUser)
    ensures Deactivate(carts, username) == Err(NotAuthorizedUser)
    ensures RemoveFromCart(carts, username, ids) == Err(NotAuthorizedUser)
    ensures ChangeQuantity(carts, username, id, q) == Err(NotAuthorizedUser)
  {
  }

  /** A user without a cart is given, and has saved, an ACTIVE empty cart. */
  lemma NewUserGetsActiveEmptyCart(carts: Carts, username: string)
    requires !Blank(username) && username !in carts
    ensures GetCart(carts, Some(username)) == Ok(carts[username := CartRecord(map[], ACTIVE)])
  {
  }

  /** Nothing can be added to a deactivated cart. */
  lemma AddToDeactivatedFails(carts: Carts, username: string, entries: seq<(ProductId, Long)>, warehouse: Availability)
    requires !Blank(username) && username in carts && carts[username].state == DEACTIVATE
    ensures AddToCart(carts, Some(username), entries, warehouse) == Err(CartDeactivated)
  {
  }

  /** One non-positive quantity rejects the whole request; the error names the
      first such product in iteration order. */
  lemma NonPositiveRejects(carts: Carts, username: Option<string>, entries: seq<(ProductId, Long)>,
                           warehouse: Availability, i: nat)
    requires Authorized(username) && GetOrCreate(carts, username.value).state == ACTIVE
    requires i < |entries| && entries[i].1 <= 0
    ensures AddToCart(carts, username, entries, warehouse).Err?
    ensures AddToCart(carts, username, entries, warehouse).error.NonPositiveQuantity?
    ensures exists m :: 0 <= m <= i && entries[m].1 <= 0 &&
              AddToCart(carts, username, entries, warehouse).error.productId == entries[m].0
  {
  }

  /** On an active cart, an add request is accepted exactly when all its
      quantities are positive and the warehouse accepts the summed cart; the
      saved cart then holds, per product, the old quantity plus the requested
      one, whatever the request map's iteration order. */
  lemma {:induction false} AddSumsQuantities(carts: Carts, username: Option<string>, entries: seq<(ProductId, Long)>,
                                             request: map<ProductId, Long>, warehouse: Availability)
    requires Authorized(username) && GetOrCreate(carts, username.value).state == ACTIVE
    requires IsEntrySet(entries, request)
    ensures AddToCart(carts, username, entries, warehouse).Ok? <==>
              (forall k :: k in request ==> request[k] > 0) &&
              warehouse(Summed(GetOrCreate(carts, username.value).products, request))
    ensures AddToCart(carts, username, entries, warehouse).Ok? ==>
              AddToCart(carts, username, entries, warehouse).value[username.value] ==
                CartRecord(Summed(GetOrCreate(carts, username.value).products, request), ACTIVE)
  {
    MergeAllSummed(GetOrCreate(carts, username.value).products, entries, request);
    assert (forall k :: k in request ==> request[k] > 0) <==> (forall j :: 0 <= j < |entries| ==> entries[j].1 > 0) by {
      if forall k :: k in request ==> request[k] > 0 {
        forall j | 0 <= j < |entries| ensures entries[j].1 > 0 {
          assert entries[j].0 in request;
        }
      }
      if forall j :: 0 <= j < |entries| ==> entries[j].1 > 0 {
        forall k | k in request ensures request[k] > 0 {
          var j :| 0 <= j < |entries| && entries[j].0 == k;
        }
      }
    }
  }

  /** Deactivation is idempotent, and needs an existing cart. */
  lemma DeactivateIdempotent(carts: Carts, username: Option<string>)
    requires Deactivate(carts, username).Ok?
    ensures Deactivate(Deactivate(carts, username).value, username) == Deactivate(carts, username)
  {
    var once := Deactivate(carts, username).value;
    assert once[username.value := once[username.value].(state := DEACTIVATE)] == once;
  }

  lemma DeactivateMissingThrows(carts: Carts, username: string)
    requires !Blank(username) && username !in carts
    ensures Deactivate(carts, Some(username)) == Err(ShoppingCartNotFound)
  {
  }

  /** Removal from an active cart is all or nothing: it succeeds exactly when
      every listed id is in the cart, and then every listed id is gone and the
      rest is kept; otherwise the error lists the missing ids. */
  lemma RemoveAllOrNothing(carts: Carts, username: string, ids: seq<ProductId>)
    requires !Blank(username) && username in carts && carts[username].state == ACTIVE
    ensures RemoveFromCart(carts, Some(username), ids).Ok? <==>
              forall i :: 0 <= i < |ids| ==> ids[i] in carts[username].products
    ensures RemoveFromCart(carts, Some(username), ids).Ok? ==>
              var after := RemoveFromCart(carts, Some(username), ids).value[username].products;
              (forall i :: 0 <= i < |ids| ==> ids[i] !in after) &&
              (forall k :: k in carts[username].products && k !in ids ==> k in after && after[k] == carts[username].products[k])
    ensures RemoveFromCart(carts, Some(username), ids).Err? ==>
              RemoveFromCart(carts, Some(username), ids).error == ProductNotFound(Missing(carts[username].products, ids))
  {
    var m := Missing(carts[username].products, ids);
    assert m != [] ==> m[0] in m;
  }

  /** Removal is rejected on a deactivated cart. */
  lemma RemoveFromDeactivatedFails(carts: Carts, username: string, ids: seq<ProductId>)
    requires !Blank(username) && username in carts && carts[username].state == DEACTIVATE
    ensures RemoveFromCart(carts, Some(username), ids) == Err(CartDeactivated)
  {
  }

  /** A positive new quantity is stored as it is, adding the product if
      needed; any other quantity removes the product. Other products are
      kept, and a deactivated cart rejects the change. */
  lemma ChangeQuantitySetOrRemove(carts: Carts, username: string, id: ProductId, q: Long)
    requires !Blank(username) && username in carts
    ensures carts[username].state == DEACTIVATE ==> ChangeQuantity(carts, Some(username), id, q) == Err(CartDeactivated)
    ensures ChangeQuantity(carts, Some(username), id, q).Ok? ==>
              var after := ChangeQuantity(carts, Some(username), id, q).value[username].products;
              (q > 0 ==> id in after && after[id] == q) && (q <= 0 ==> id !in after) &&
              after.Keys - {id} == carts[username].products.Keys - {id} &&
              (forall k :: k in after && k != id ==> after[k] == carts[username].products[k])
  {
  }

  /** The service, with the cart repository as its state. */
  class ShoppingCartService {
    var carts: Carts

    constructor(carts: Carts)
      ensures this.carts == carts
    {
      this.carts := carts;
    }

    /** `checkUser` then `findAllByUsername`, saving a new cart on a first visit. */
    method GetOrCreateShoppingCartByUser(username: Option<string>) returns (r: Result<ShoppingCart, CartError>)
      modifies this
      ensures !Authorized(username) ==> r == Err(NotAuthorizedUser) && carts == old(carts)
      ensures Authorized(username) ==> r.Ok? && fresh(r.value)
      ensures Authorized(username) ==>
                carts == old(carts)[username.value := GetOrCreate(old(carts), username.value)] &&
                r.value.products == GetOrCreate(old(carts), username.value).products &&
                r.value.state == GetOrCreate(old(carts), username.value).state
    {
      if !Authorized(username) {
        return Err(NotAuthorizedUser);
      }
      var name := username.value;
      if name in carts {
        var cart := new ShoppingCart(name, carts[name].state, carts[name].products);
        return Ok(cart);
      }
      var cart := new ShoppingCart(name, ACTIVE, map[]);
      carts := carts[name := CartRecord(cart.products, cart.state)];
      return Ok(cart);
    }

    /** `checkUser` then `findAllByUsername`; a missing cart throws. */
    method GetExistingShoppingCartByUser(username: Option<string>) returns (r: Result<ShoppingCart, CartError>)
      ensures !Authorized(username) ==> r == Err(NotAuthorizedUser)
      ensures Authorized(username) && username.value !in carts ==> r == Err(ShoppingCartNotFound)
      ensures r.Ok? <==> Authorized(username) && username.value in carts
      ensures r.Ok? ==> Authorized(username) && username.value in carts && fresh(r.value) &&
                        r.value.products == carts[username.value].products &&
                        r.value.state == carts[username.value].state
    {
      if !Authorized(username) {
        return Err(NotAuthorizedUser);
      }
      var name := username.value;
      if name !in carts {
        return Err(ShoppingCartNotFound);
      }
      var cart := new ShoppingCart(name, carts[name].state, carts[name].products);
      return Ok(cart);
    }

    method AddProductToCart(username: Option<string>, entries: seq<(ProductId, Long)>, warehouse: Availability)
      returns (r: Result<CartRecord, CartError>)
      modifies this
      ensures var spec := AddToCart(old(carts), username, entries, warehouse);
              (r.Ok? <==> spec.Ok?) &&
              (spec.Ok? ==> carts == spec.value && r.value == carts[username.value]) &&
              (spec.Err? ==> carts == old(carts) && r.error == spec.error)
    {
      var before := carts;
      var got := GetOrCreateShoppingCartByUser(username);
      if got.Err? {
        return Err(got.error);
      }
      var cart := got.value;
      if cart.state.DEACTIVATE? {
        carts := before;  // rolled back
        return Err(CartDeactivated);
      }
      var bad := MergeRequest(cart, entries);
      if bad.Some? {
        carts := before;  // rolled back
        return Err(NonPositiveQuantity(entries[bad.value].0));
      }
      if !warehouse(cart.products) {
        carts := before;  // rolled back
        return Err(WarehouseRejected);
      }
      carts := carts[username.value := CartRecord(cart.products, cart.state)];
      return Ok(carts[username.value]);
    }

    /** The `request.forEach` of `addProductToCart`: entries are merged into
        the cart in iteration order until one with a non-positive quantity
        stops the loop. */
    method MergeRequest(cart: ShoppingCart, entries: seq<(ProductId, Long)>) returns (bad: Option<nat>)
      modifies cart
      ensures bad == FirstNonPositive(entries)
      ensures bad.None? ==> cart.products == MergeAll(old(cart.products), entries)
      ensures cart.state == old(cart.state)
    {
      for i := 0 to |entries|
        invariant cart.products == MergeAll(old(cart.products), entries[..i])
        invariant cart.state == old(cart.state)
        invariant forall j :: 0 <= j < i ==> entries[j].1 > 0
      {
        if entries[i].1 <= 0 {
          return Some(i);
        }
        MergeAllStep(old(cart.products), entries, i);
        cart.AddProduct(entries[i].0, entries[i].1);
      }
      assert entries[..|entries|] == entries;
      return None;
    }

    /** Read-only: the saved new cart of a first visit is the only change. */
    method GetShoppingCart(username: Option<string>) returns (r: Result<CartRecord, CartError>)
      modifies this
      ensures var spec := GetCart(old(carts), username);
              (r.Ok? <==> spec.Ok?) &&
              (spec.Ok? ==> carts == spec.value && r.value == carts[username.value]) &&
              (spec.Err? ==> carts == old(carts) && r.error == spec.error)
    {
      var got := GetOrCreateShoppingCartByUser(username);
      if got.Err? {
        return Err(got.error);
      }
      return Ok(CartRecord(got.value.products, got.value.state));
    }

    method DeactivatingUserCart(username: Option<string>) returns (r: Result<(), CartError>)
      modifies this
      ensures var spec := Deactivate(old(carts), username);
              (r.Ok? <==> spec.Ok?) &&
              (spec.Ok? ==> carts == spec.value) &&
              (spec.Err? ==> carts == old(carts) && r.error == spec.error)
    {
      var got := GetExistingShoppingCartByUser(username);
      if got.Err? {
        return Err(got.error);
      }
      var cart := got.value;
      cart.state := DEACTIVATE;
      carts := carts[username.value := CartRecord(cart.products, cart.state)];
      return Ok(());
    }

    method RemoveProductFromCart(username: Option<string>, productIds: seq<ProductId>)
      returns (r: Result<CartRecord, CartError>)
      modifies this
      ensures var spec := RemoveFromCart(old(carts), username, productIds);
              (r.Ok? <==> spec.Ok?) &&
              (spec.Ok? ==> carts == spec.value && r.value == carts[username.value]) &&
              (spec.Err? ==> carts == old(carts) && r.error == spec.error)
    {
      var got := GetExistingShoppingCartByUser(username);
      if got.Err? {
        return Err(got.error);
      }
      var cart := got.value;
      if cart.state.DEACTIVATE? {
        return Err(CartDeactivated);
      }
      var missing := Missing(cart.products, productIds);
      if missing != [] {
        return Err(ProductNotFound(missing));
      }
      cart.RemoveProducts(productIds);
      carts := carts[username.value := CartRecord(cart.products, cart.state)];
      return Ok(carts[username.value]);
    }

    method ChangeProductQuantity(username: Option<string>, productId: ProductId, newQuantity: Long)
      returns (r: Result<CartRecord, CartError>)
      modifies this
      ensures var spec := ChangeQuantity(old(carts), username, productId, newQuantity);
              (r.Ok? <==> spec.Ok?) &&
              (spec.Ok? ==> carts == spec.value && r.value == carts[username.value]) &&
              (spec.Err? ==> carts == old(carts) && r.error == spec.error)
    {
      var got := GetExistingShoppingCartByUser(username);
      if got.Err? {
        return Err(got.error);
      }
      var cart := got.value;
      if cart.state.DEACTIVATE? {
        return Err(CartDeactivated);
      }
      if newQuantity > 0 {
        cart.products := cart.products[productId := newQuantity];
      } else {
        cart.products := cart.products - {productId};
      }
      carts := carts[username.value := CartRecord(cart.products, cart.state)];
      return Ok(carts[username.value]);
    }
  }
}
