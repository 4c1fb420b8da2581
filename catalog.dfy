/**
 * Catalogue maintenance: creating, partially updating and deleting products
 * (POST, PUT and DELETE on /products).
 */
module Catalog {
  import opened Records

  /** The record POST /products stores: the request's fields, inventory 0 when absent. */
  function NewProduct(id: string, data: ProductCreate, now: Timestamp): (p: Product)
    ensures p.id == id && p.createdAt == now
    ensures p.name == data.name && p.description == data.description
    ensures p.price == data.price && p.imageBase64 == data.imageBase64
    ensures data.inventory.None? ==> p.inventory == 0
    ensures data.inventory.Some? ==> p.inventory == data.inventory.value
  {
    Product(id, data.name, data.description, data.price, data.imageBase64,
            match data.inventory { case None => 0 case Some(n) => n }, now)
  }

  function Pick<T>(given: Option<T>, current: T): T {
    match given
    case None => current
    case Some(v) => v
  }

  /** The update that gives no field at all. */
  const NoChanges: ProductUpdate := ProductUpdate(None, None, None, None, None)

  /**
   * The `$set` of the fields whose update value is not None: every given
   * field is overwritten, every other field (id and created_at included)
   * keeps its value.
   */
  function MergeUpdate(p: Product, u: ProductUpdate): (r: Product)
    ensures r.id == p.id && r.createdAt == p.createdAt
    ensures u.name.Some? ==> r.name == u.name.value
    ensures u.name.None? ==> r.name == p.name
    ensures u.description.Some? ==> r.description == u.description.value
    ensures u.description.None? ==> r.description == p.description
    ensures u.price.Some? ==> r.price == u.price.value
    ensures u.price.None? ==> r.price == p.price
    ensures u.imageBase64.Some? ==> r.imageBase64 == u.imageBase64.value
    ensures u.imageBase64.None? ==> r.imageBase64 == p.imageBase64
    ensures u.inventory.Some? ==> r.inventory == u.inventory.value
    ensures u.inventory.None? ==> r.inventory == p.inventory
  {
    p.(name := Pick(u.name, p.name),
       description := Pick(u.description, p.description),
       price := Pick(u.price, p.price),
       imageBase64 := Pick(u.imageBase64, p.imageBase64),
       inventory := Pick(u.inventory, p.inventory))
  }

  /** An update that gives no field leaves the product as it was. */
  lemma MergeNoChanges(p: Product)
    ensures MergeUpdate(p, NoChanges) == p
  {
  }

  /** Applying the same update twice is the same as applying it once. */
  lemma MergeIdempotent(p: Product, u: ProductUpdate)
    ensures MergeUpdate(MergeUpdate(p, u), u) == MergeUpdate(p, u)
  {
  }

  /** Two updates in a row amount to one whose given fields are the later ones where both give a field. */
  function Then(first: ProductUpdate, second: ProductUpdate): ProductUpdate {
    ProductUpdate(
      if second.name.Some? then second.name else first.name,
      if second.description.Some? then second.description else first.description,
      if second.price.Some? then second.price else first.price,
      if second.imageBase64.Some? then second.imageBase64 else first.imageBase64,
      if second.inventory.Some? then second.inventory else first.inventory)
  }

  lemma MergeSequential(p: Product, first: ProductUpdate, second: ProductUpdate)
    ensures MergeUpdate(MergeUpdate(p, first), second) == MergeUpdate(p, Then(first, second))
  {
  }

  /**
   * PUT /products/{id}: 404 when the id is unknown, otherwise the product
   * after the merge (the record the endpoint reads back and returns).
   */
  function UpdateProduct(products: map<string, Product>, id: string, u: ProductUpdate): (r: Result<Product>)
    ensures r.Err? <==> id !in products
    ensures r.Err? ==> r.error == ProductNotFound(id)
    ensures r.Ok? ==> r.value == MergeUpdate(products[id], u)
  {
    if id !in products then Err(ProductNotFound(id))
    else Ok(MergeUpdate(products[id], u))
  }

  /** The product table after PUT /products/{id}. */
  function UpdatedTable(products: map<string, Product>, id: string, u: ProductUpdate): (r: map<string, Product>)
    ensures r.Keys == products.Keys
    ensures id in products ==> r[id] == MergeUpdate(products[id], u)
    ensures forall k :: k in products && k != id ==> r[k] == products[k]
  {
    match UpdateProduct(products, id, u)
    case Err(_) => products
    case Ok(p) => products[id := p]
  }

  /** Repeating an update request changes nothing further. */
  lemma UpdateIdempotent(products: map<string, Product>, id: string, u: ProductUpdate)
    ensures UpdatedTable(UpdatedTable(products, id, u), id, u) == UpdatedTable(products, id, u)
  {
  }

  /** DELETE /products/{id}: 404 exactly when the id is unknown; otherwise only that product goes. */
  function DeleteProduct(products: map<string, Product>, id: string): (r: Result<map<string, Product>>)
    ensures r.Err? <==> id !in products
    ensures r.Err? ==> r.error == ProductNotFound(id)
    ensures r.Ok? ==> r.value.Keys == products.Keys - {id}
    ensures r.Ok? ==> forall k :: k in r.value ==> r.value[k] == products[k]
  {
    if id !in products then Err(ProductNotFound(id))
    else Ok(products - {id})
  }
}
