/**
  The tables the sale engine reads and writes: products, salable_products,
  users, sales and sale_items, as exact values. Timestamps other than
  `paid_at` are not modelled.
 */
module Schema {
  /** A row of `products`; `stock` is an unsigned column. */
  datatype Product = Product(name: string, description: string, stock: nat)

  /** A row of `salable_products`: the product on offer and its price, in cents (decimal(10,2)). */
  datatype Salable = Salable(productId: int, priceCents: int)

  /** A row of `users`. */
  datatype User = User(name: string, email: string)

  /** A row of `sales`. */
  datatype Sale = Sale(id: int, userId: int, status: string, paidAt: int, code: string)

  /** A row of `sale_items`; `taxes` is the tax rate applied, as a fraction. */
  datatype SaleItem = SaleItem(id: int, saleId: int, salableId: int, quantity: nat, taxes: real)

  datatype Tables = Tables(
    products: map<int, Product>,
    salables: map<int, Salable>,
    users: map<int, User>,
    sales: seq<Sale>,
    items: seq<SaleItem>)

  /** The failures of the sale endpoints. */
  datatype SaleError =
    | ValidationFailed              // a request validation rule failed
    | SalableNotFound               // abort(422, 'Producto vendible no encontrado.')
    | InsufficientStock(productName: string)
    | ProductNotFound               // firstOrFail on the locked product
    | SaleNotFound                  // abort(404, 'Venta no encontrada')

  /** The HTTP status each failure is reported with. */
  function HttpStatus(e: SaleError): (code: int)
    ensures code == 404 <==> e.ProductNotFound? || e.SaleNotFound?
    ensures code == 422 || code == 404
  {
    match e
    case ValidationFailed => 422
    case SalableNotFound => 422
    case InsufficientStock(_) => 422
    case ProductNotFound => 404
    case SaleNotFound => 404
  }

  predicate HasSale(t: Tables, id: int) {
    exists k :: 0 <= k < |t.sales| && t.sales[k].id == id
  }

  /** `sales.id` is the primary key of `sales`. */
  predicate SaleIdsUnique(t: Tables) {
    forall i, j :: 0 <= i < j < |t.sales| ==> t.sales[i].id != t.sales[j].id
  }

  /**
    The foreign keys of the schema: every salable product names a product,
    every sale a user, every item a sale and a salable product; quantities
    are positive and tax rates non-negative, as the checkout writes them.
   */
  predicate ForeignKeys(t: Tables) {
    && (forall s :: s in t.salables ==> t.salables[s].productId in t.products)
    && (forall k :: 0 <= k < |t.sales| ==> t.sales[k].userId in t.users)
    && (forall k :: 0 <= k < |t.items| ==> t.items[k].salableId in t.salables)
    && (forall k :: 0 <= k < |t.items| ==> HasSale(t, t.items[k].saleId))
    && (forall k :: 0 <= k < |t.items| ==> t.items[k].quantity >= 1 && t.items[k].taxes >= 0.0)
  }
}
