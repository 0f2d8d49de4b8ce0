/** The shopping store (shopping-store/service/ShoppingStoreServiceImpl.java):
    the product catalogue, in which removal is a soft delete. */
module Store {
  import opened Common

  datatype ProductState = ACTIVE | DEACTIVATE

  /** Quantity-state and category constants, by enum name. */
  type QuantityState = string
  type ProductCategory = string

  /** A catalogue product (model/Product.java); its price is not part of this model. */
  datatype Product = Product(
    productName: string, description: string, imageSrc: string,
    quantityState: QuantityState, productState: ProductState, productCategory: ProductCategory)

  /** The incoming product as `toProduct` maps it: the state may be null. */
  datatype ProductDto = ProductDto(
    productName: string, description: string, imageSrc: string,
    quantityState: QuantityState, productState: Option<ProductState>, productCategory: ProductCategory)

  datatype StoreError = ProductNotFound(productId: ProductId)

  type Catalogue = map<ProductId, Product>

  /** `ProductMapper.update(dto, product)`, generated code: a parameter. */
  type Mapper = (ProductDto, Product) -> Product

  /** `toProduct` followed by the default: a product without a state is
      ACTIVE, a given state is kept, the other fields are copied. */
  function NewProduct(dto: ProductDto): (p: Product)
    ensures dto.productState.None? ==> p.productState == ACTIVE
    ensures dto.productState.Some? ==> p.productState == dto.productState.value
    ensures p.productName == dto.productName && p.description == dto.description && p.imageSrc == dto.imageSrc
    ensures p.quantityState == dto.quantityState && p.productCategory == dto.productCategory
  {
    Product(dto.productName, dto.description, dto.imageSrc, dto.quantityState,
            if dto.productState.None? then ACTIVE else dto.productState.value, dto.productCategory)
  }

  /** The catalogue after `createNewProduct`, saved under the generated id. */
  function Create(catalogue: Catalogue, newId: ProductId, dto: ProductDto): (c: Catalogue)
    ensures c.Keys == catalogue.Keys + {newId} && c[newId] == NewProduct(dto)
    ensures forall id :: id in catalogue && id != newId ==> c[id] == catalogue[id]
  {
    catalogue[newId := NewProduct(dto)]
  }

  /** `findProductById`: an unknown id throws. */
  function FindProductById(catalogue: Catalogue, id: ProductId): (r: Result<Product, StoreError>)
    ensures r.Ok? <==> id in catalogue
    ensures r.Ok? ==> r.value == catalogue[id]
    ensures r.Err? ==> r.error == ProductNotFound(id)
  {
    if id in catalogue then Ok(catalogue[id]) else Err(ProductNotFound(id))
  }

  /** The catalogue after `updateProduct`: the mapper rewrites the stored product. */
  function Update(catalogue: Catalogue, id: ProductId, dto: ProductDto, update: Mapper): (r: Result<Catalogue, StoreError>)
    ensures r.Ok? <==> id in catalogue
    ensures r.Ok? ==> r.value.Keys == catalogue.Keys && r.value[id] == update(dto, catalogue[id])
    ensures r.Ok? ==> forall k :: k in catalogue && k != id ==> r.value[k] == catalogue[k]
  {
    match FindProductById(catalogue, id)
    case Err(e) => Err(e)
    case Ok(p) => Ok(catalogue[id := update(dto, p)])
  }

  /** The catalogue after `removeProductFromStore`: the product stays, with
      the state DEACTIVATE and every other field as it was. */
  function Remove(catalogue: Catalogue, id: ProductId): (r: Result<Catalogue, StoreError>)
    ensures r.Ok? <==> id in catalogue
    ensures r.Ok? ==> r.value.Keys == catalogue.Keys && r.value[id].productState == DEACTIVATE
    ensures r.Ok? ==> r.value[id].productName == catalogue[id].productName &&
                      r.value[id].description == catalogue[id].description &&
                      r.value[id].imageSrc == catalogue[id].imageSrc &&
                      r.value[id].quantityState == catalogue[id].quantityState &&
                      r.value[id].productCategory == catalogue[id].productCategory
    ensures r.Ok? ==> forall k :: k in catalogue && k != id ==> r.value[k] == catalogue[k]
  {
    match FindProductById(catalogue, id)
    case Err(e) => Err(e)
    case Ok(p) => Ok(catalogue[id := p.(productState := DEACTIVATE)])
  }

  /** The catalogue after `setProductQuantityState`: only that field of that
      product changes. */
  function SetQuantityState(catalogue: Catalogue, id: ProductId, state: QuantityState): (r: Result<Catalogue, StoreError>)
    ensures r.Ok? <==> id in catalogue
    ensures r.Ok? ==> r.value.Keys == catalogue.Keys && r.value[id].quantityState == state
    ensures r.Ok? ==> r.value[id].productName == catalogue[id].productName &&
                      r.value[id].description == catalogue[id].description &&
                      r.value[id].imageSrc == catalogue[id].imageSrc &&
                      r.value[id].productState == catalogue[id].productState &&
                      r.value[id].productCategory == catalogue[id].productCategory
    ensures r.Ok? ==> forall k :: k in catalogue && k != id ==> r.value[k] == catalogue[k]
  {
    match FindProductById(catalogue, id)
    case Err(e) => Err(e)
    case Ok(p) => Ok(catalogue[id := p.(quantityState := state)])
  }

  /** `findByProductCategoryAndProductState(category, ACTIVE, …)`, all pages
      together. */
  function Listing(catalogue: Catalogue, category: ProductCategory): (l: Catalogue)
    ensures forall id :: id in l <==>
              id in catalogue && catalogue[id].productCategory == category && catalogue[id].productState == ACTIVE
    ensures forall id :: id in l ==> l[id] == catalogue[id]
  {
    map id | id in catalogue && catalogue[id].productCategory == category && catalogue[id].productState == ACTIVE ::
      catalogue[id]
  }

  /** Every operation on an unknown id throws ProductNotFound. */
  lemma UnknownIdRejected(catalogue: Catalogue, id: ProductId, dto: ProductDto, update: Mapper, state: QuantityState)
    requires id !in catalogue
    ensures FindProductById(catalogue, id) == Err(ProductNotFound(id))
    ensures Update(catalogue, id, dto, update) == Err(ProductNotFound(id))
    ensures Remove(catalogue, id) == Err(ProductNotFound(id))
    ensures SetQuantityState(catalogue, id, state) == Err(ProductNotFound(id))
  {
  }

  /** A product created without a state is listed under its category. */
  lemma CreatedIsListed(catalogue: Catalogue, newId: ProductId, dto: ProductDto)
    requires dto.productState.None?
    ensures newId in Listing(Create(catalogue, newId, dto), dto.productCategory)
  {
  }

  /** A removed product is still found, but drops out of every listing, and
      nothing else does. */
  lemma RemovedNotListed(catalogue: Catalogue, id: ProductId, category: ProductCategory)
    requires id in catalogue
    ensures FindProductById(Remove(catalogue, id).value, id).Ok?
    ensures Listing(Remove(catalogue, id).value, category) == Listing(catalogue, category) - {id}
  {
  }

  /** Removing twice is removing once. */
  lemma RemoveIdempotent(catalogue: Catalogue, id: ProductId)
    requires id in catalogue
    ensures Remove(Remove(catalogue, id).value, id) == Remove(catalogue, id)
  {
    var once := Remove(catalogue, id).value;
    assert once[id := once[id].(productState := DEACTIVATE)] == once;
  }

  /** A quantity-state change leaves every listing as it was, but for the
      changed product's own quantity state. */
  lemma SetQuantityStateKeepsListing(catalogue: Catalogue, id: ProductId, state: QuantityState, category: ProductCategory)
    requires id in catalogue
    ensures Listing(SetQuantityState(catalogue, id, state).value, category).Keys == Listing(catalogue, category).Keys
  {
  }

  /** The service, with the product repository as its state. */
  class ShoppingStoreService {
    var products: Catalogue

    constructor(products: Catalogue)
      ensures this.products == products
    {
      this.products := products;
    }

    /** `newId` is the UUID the repository generates on save. */
    method CreateNewProduct(dto: ProductDto, newId: ProductId) returns (saved: Product)
      modifies this
      ensures products == Create(old(products), newId, dto) && saved == products[newId]
    {
      var product := NewProduct(dto);
      products := products[newId := product];
      return product;
    }

    method UpdateProduct(id: ProductId, dto: ProductDto, update: Mapper) returns (r: Result<Product, StoreError>)
      modifies this
      ensures var spec := Update(old(products), id, dto, update);
              (spec.Ok? ==> products == spec.value && r == Ok(products[id])) &&
              (spec.Err? ==> products == old(products) && r == Err(spec.error))
    {
      var found := FindProductById(products, id);
      if found.Err? {
        return Err(found.error);
      }
      var product := update(dto, found.value);
      products := products[id := product];
      return Ok(product);
    }

    method GetProduct(id: ProductId) returns (r: Result<Product, StoreError>)
      ensures r.Ok? <==> id in products
      ensures r.Ok? ==> r.value == products[id]
      ensures r.Err? ==> r.error == ProductNotFound(id)
    {
      return FindProductById(products, id);
    }

    method GetProducts(category: ProductCategory) returns (page: Catalogue)
      ensures forall id :: id in page <==>
                id in products && products[id].productCategory == category && products[id].productState == ACTIVE
      ensures forall id :: id in page ==> page[id] == products[id]
    {
      return Listing(products, category);
    }

    method RemoveProductFromStore(id: ProductId) returns (r: Result<(), StoreError>)
      modifies this
      ensures var spec := Remove(old(products), id);
              (spec.Ok? ==> products == spec.value && r.Ok?) &&
              (spec.Err? ==> products == old(products) && r == Err(spec.error))
    {
      var found := FindProductById(products, id);
      if found.Err? {
        return Err(found.error);
      }
      products := products[id := found.value.(productState := DEACTIVATE)];
      return Ok(());
    }

    method SetProductQuantityState(id: ProductId, state: QuantityState) returns (r: Result<(), StoreError>)
      modifies this
      ensures var spec := SetQuantityState(old(products), id, state);
              (spec.Ok? ==> products == spec.value && r.Ok?) &&
              (spec.Err? ==> products == old(products) && r == Err(spec.error))
    {
      var found := FindProductById(products, id);
      if found.Err? {
        return Err(found.error);
      }
      products := products[id := found.value.(quantityState := state)];
      return Ok(());
    }
  }
}
