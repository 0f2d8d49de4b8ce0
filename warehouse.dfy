/** The warehouse service (warehouse/service/WarehouseServiceImpl.java):
    stock per product, the read-only availability check of a cart, and the
    warehouse address. */
module Warehouse {
  import opened Common

  /** A stocked product (model/WarehouseProduct.java); its weight and
      dimensions are not part of this model. */
  datatype WarehouseProduct = WarehouseProduct(fragile: bool, quantity: Long)

  type Stock = map<ProductId, WarehouseProduct>

  /** The exceptions the service throws. */
  datatype WarehouseError =
    | SpecifiedProductAlreadyInWarehouse(productId: ProductId)
    | NoSpecifiedProductInWarehouse(productId: ProductId)
    | ProductNotFound(productId: ProductId)
    | ProductInShoppingCartLowQuantityInWarehouse(productId: ProductId)

  /** What `calculateOrderDetails` books for a cart; the delivery volume and
      weight are not part of this model. */
  datatype BookedProducts = BookedProducts(fragile: bool)

  datatype AddressDto = AddressDto(country: string, city: string, street: string, house: string, flat: string)

  /** The repository after `addNewProductToWarehouse`: a known id is refused. */
  function Register(stock: Stock, productId: ProductId, product: WarehouseProduct): (r: Result<Stock, WarehouseError>)
    ensures productId in stock <==> r == Err(SpecifiedProductAlreadyInWarehouse(productId))
    ensures r.Ok? ==> r.value.Keys == stock.Keys + {productId} && r.value[productId] == product
    ensures r.Ok? ==> forall k :: k in stock ==> r.value[k] == stock[k]
  {
    if productId in stock then Err(SpecifiedProductAlreadyInWarehouse(productId))
    else Ok(stock[productId := product])
  }

  /** The repository after `takeProductToWarehouse`: the stock of a known
      product grows by the delivered quantity (a `long` sum). */
  function Restock(stock: Stock, productId: ProductId, quantity: Long): (r: Result<Stock, WarehouseError>)
    ensures productId !in stock <==> r == Err(NoSpecifiedProductInWarehouse(productId))
    ensures r.Ok? ==> r.value.Keys == stock.Keys && r.value[productId].fragile == stock[productId].fragile
    ensures r.Ok? && -0x8000_0000_0000_0000 <= stock[productId].quantity + quantity < 0x8000_0000_0000_0000 ==>
              r.value[productId].quantity == stock[productId].quantity + quantity
    ensures r.Ok? ==> forall k :: k in stock && k != productId ==> r.value[k] == stock[k]
  {
    if productId !in stock then Err(NoSpecifiedProductInWarehouse(productId))
    else
      var p := stock[productId];
      Ok(stock[productId := p.(quantity := LongSum(p.quantity, quantity))])
  }

  /** Whether the cart entry `e` can be served from `stock`. */
  predicate Serves(stock: Stock, e: (ProductId, Long))
  {
    e.0 in stock && e.1 <= stock[e.0].quantity
  }

  /** `validateProductQuantities` over the cart's entries in iteration order:
      the first entry that is not stocked, or stocked too thinly. */
  function FirstProblem(stock: Stock, entries: seq<(ProductId, Long)>): (r: Option<WarehouseError>)
    ensures r.None? <==> forall i :: 0 <= i < |entries| ==> Serves(stock, entries[i])
    ensures r.Some? ==> exists i :: (0 <= i < |entries| && !Serves(stock, entries[i]) &&
                                     (forall j :: 0 <= j < i ==> Serves(stock, entries[j])) &&
                                     r.value == if entries[i].0 !in stock then ProductNotFound(entries[i].0)
                                                else ProductInShoppingCartLowQuantityInWarehouse(entries[i].0))
  {
    if |entries| == 0 then None
    else if entries[0].0 !in stock then Some(ProductNotFound(entries[0].0))
    else if entries[0].1 > stock[entries[0].0].quantity then Some(ProductInShoppingCartLowQuantityInWarehouse(entries[0].0))
    else
      var r := FirstProblem(stock, entries[1..]);
      assert forall i :: 1 <= i < |entries| ==> entries[1..][i - 1] == entries[i];
      r
  }

  /** The check passes exactly when every cart product is stocked with at
      least the requested quantity, whatever the iteration order. */
  lemma AvailableIff(stock: Stock, entries: seq<(ProductId, Long)>, cart: map<ProductId, Long>)
    requires IsEntrySet(entries, cart)
    ensures FirstProblem(stock, entries).None? <==>
              forall k :: k in cart ==> k in stock && cart[k] <= stock[k].quantity
  {
    if forall i :: 0 <= i < |entries| ==> Serves(stock, entries[i]) {
      forall k | k in cart ensures k in stock && cart[k] <= stock[k].quantity {
        var i :| 0 <= i < |entries| && entries[i].0 == k;
        assert Serves(stock, entries[i]);
      }
    }
  }

  /** A cart product missing from the warehouse always fails the check; when
      every product is stocked the failure is a low quantity, and when every
      stocked product has enough the failure is a missing product. */
  lemma FailureKinds(stock: Stock, entries: seq<(ProductId, Long)>, cart: map<ProductId, Long>)
    requires IsEntrySet(entries, cart)
    ensures (exists k :: k in cart && k !in stock) ==> FirstProblem(stock, entries).Some?
    ensures (forall k :: k in cart ==> k in stock) && FirstProblem(stock, entries).Some? ==>
              FirstProblem(stock, entries).value.ProductInShoppingCartLowQuantityInWarehouse?
    ensures (forall k :: k in cart && k in stock ==> cart[k] <= stock[k].quantity) && FirstProblem(stock, entries).Some? ==>
              FirstProblem(stock, entries).value.ProductNotFound?
  {
    AvailableIff(stock, entries, cart);
  }

  /** More stock never makes a passing check fail. */
  lemma RestockKeepsAvailable(stock: Stock, productId: ProductId, quantity: Long, entries: seq<(ProductId, Long)>)
    requires Restock(stock, productId, quantity).Ok?
    requires 0 <= quantity && stock[productId].quantity + quantity < 0x8000_0000_0000_0000
    requires FirstProblem(stock, entries).None?
    ensures FirstProblem(Restock(stock, productId, quantity).value, entries).None?
  {
    var after := Restock(stock, productId, quantity).value;
    forall i | 0 <= i < |entries| ensures Serves(after, entries[i]) {
      assert Serves(stock, entries[i]);
    }
  }

  /** The cart has a fragile product. */
  predicate AnyFragile(stock: Stock, cart: map<ProductId, Long>)
    requires forall k :: k in cart ==> k in stock
  {
    exists k :: k in cart && stock[k].fragile
  }

  /** The fragile flag, counted over the entries, is the same for every
      iteration order of the cart. */
  lemma FragileOverEntries(stock: Stock, entries: seq<(ProductId, Long)>, cart: map<ProductId, Long>)
    requires IsEntrySet(entries, cart) && forall k :: k in cart ==> k in stock
    ensures (exists i :: 0 <= i < |entries| && stock[entries[i].0].fragile) <==> AnyFragile(stock, cart)
  {
    if AnyFragile(stock, cart) {
      var k :| k in cart && stock[k].fragile;
      var i :| 0 <= i < |entries| && entries[i].0 == k;
      assert stock[entries[i].0].fragile;
    }
  }

  /** `getWarehouseAddress`: one address string fills all five fields. */
  function GetWarehouseAddress(address: string): (a: AddressDto)
    ensures a.country == address && a.city == address && a.street == address
    ensures a.house == address && a.flat == address
  {
    AddressDto(address, address, address, address, address)
  }

  /** `Address.ADDRESSES`. */
  const ADDRESSES: seq<string> := ["ADDRESS_1", "ADDRESS_2"]

  /** `Random.nextInt(origin, bound)`: a value from `origin` up to but not
      including `bound`; which one is the random `draw`. */
  function NextInt(origin: int, bound: int, draw: nat): (r: int)
    requires origin < bound
    ensures origin <= r < bound
    ensures draw < bound - origin ==> r == origin + draw
  {
    origin + draw % (bound - origin)
  }

  /** `Address.CURRENT_ADDRESS` as written: `nextInt(0, 1)`. */
  function CurrentAddress(draw: nat): (a: string)
    ensures a in ADDRESSES
  {
    ADDRESSES[NextInt(0, 1, draw)]
  }

  /** The exclusive bound 1 leaves only index 0: the second address is never chosen. */
  lemma CurrentAddressIsAlwaysFirst(draw: nat)
    ensures CurrentAddress(draw) == ADDRESSES[0] != ADDRESSES[1]
  {
  }

  /** The choice among all addresses, with the bound `ADDRESSES.length`. */
  function IntendedAddress(draw: nat): (a: string)
    ensures a in ADDRESSES
  {
    ADDRESSES[NextInt(0, |ADDRESSES|, draw)]
  }

  /** Every address can be chosen. */
  lemma IntendedAddressReachesEvery(i: nat)
    requires i < |ADDRESSES|
    ensures IntendedAddress(i) == ADDRESSES[i]
  {
  }

  /** The service, with the product repository as its state. */
  class WarehouseService {
    var products: Stock
    /** The random draw taken when `Address` is loaded. */
    const draw: nat
    /** The warehouse address, fixed when the class is loaded. */
    const address: string

    /** The address is `CURRENT_ADDRESS` as written, for the draw taken. */
    ghost predicate Valid()
    {
      address == CurrentAddress(draw)
    }

    constructor(products: Stock, draw: nat)
      ensures this.products == products && this.draw == draw && Valid()
    {
      this.products := products;
      this.draw := draw;
      address := CurrentAddress(draw);
    }

    method AddNewProductToWarehouse(productId: ProductId, product: WarehouseProduct) returns (r: Result<(), WarehouseError>)
      modifies this
      ensures var spec := Register(old(products), productId, product);
              (spec.Ok? ==> r.Ok? && products == spec.value) &&
              (spec.Err? ==> r == Err(spec.error) && products == old(products))
    {
      if productId in products {
        return Err(SpecifiedProductAlreadyInWarehouse(productId));
      }
      products := products[productId := product];
      return Ok(());
    }

    method TakeProductToWarehouse(productId: ProductId, quantity: Long) returns (r: Result<(), WarehouseError>)
      modifies this
      ensures var spec := Restock(old(products), productId, quantity);
              (spec.Ok? ==> r.Ok? && products == spec.value) &&
              (spec.Err? ==> r == Err(spec.error) && products == old(products))
    {
      if productId !in products {
        return Err(NoSpecifiedProductInWarehouse(productId));
      }
      var product := products[productId];
      var newQuantity := LongSum(product.quantity, quantity);
      products := products[productId := product.(quantity := newQuantity)];
      return Ok(());
    }

    /** `validateProductQuantities`: read-only, stops at the first problem. */
    method ValidateProductQuantities(entries: seq<(ProductId, Long)>) returns (problem: Option<WarehouseError>)
      ensures problem == FirstProblem(products, entries)
    {
      for i := 0 to |entries|
        invariant FirstProblem(products, entries) == FirstProblem(products, entries[i..])
      {
        var (productId, requested) := entries[i];
        if productId !in products {
          return Some(ProductNotFound(productId));
        }
        if requested > products[productId].quantity {
          return Some(ProductInShoppingCartLowQuantityInWarehouse(productId));
        }
        assert entries[i..][1..] == entries[i + 1..];
      }
      return None;
    }

    /** The fragile flag of `calculateOrderDetails`; every entry is stocked,
        as validation has checked before. */
    method CalculateOrderDetails(entries: seq<(ProductId, Long)>) returns (booked: BookedProducts)
      requires forall i :: 0 <= i < |entries| ==> entries[i].0 in products
      ensures booked.fragile <==> exists i :: 0 <= i < |entries| && products[entries[i].0].fragile
    {
      var hasFragile := false;
      for i := 0 to |entries|
        invariant hasFragile <==> exists j :: 0 <= j < i && products[entries[j].0].fragile
      {
        if products[entries[i].0].fragile {
          hasFragile := true;
        }
      }
      return BookedProducts(hasFragile);
    }

    /** `checkProductAvailability`: read-only. */
    method CheckProductAvailability(entries: seq<(ProductId, Long)>) returns (r: Result<BookedProducts, WarehouseError>)
      ensures r.Err? <==> FirstProblem(products, entries).Some?
      ensures r.Err? ==> r.error == FirstProblem(products, entries).value
      ensures r.Ok? ==> (r.value.fragile <==> exists i :: 0 <= i < |entries| && products[entries[i].0].fragile)
    {
      var problem := ValidateProductQuantities(entries);
      if problem.Some? {
        return Err(problem.value);
      }
      var booked := CalculateOrderDetails(entries);
      return Ok(booked);
    }

    /** `getWarehouseAddress`: whatever the draw, every field is the first
        address. */
    method GetWarehouseAddressDto() returns (a: AddressDto)
      requires Valid()
      ensures a == GetWarehouseAddress(address)
      ensures a == GetWarehouseAddress(ADDRESSES[0])
    {
      CurrentAddressIsAlwaysFirst(draw);
      return GetWarehouseAddress(address);
    }
  }
}
