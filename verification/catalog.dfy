/**
 * The records of the catalog, as the three JSON collections (products,
 * categories, orders) hold them. Prices, ratings and money amounts are
 * exact reals; timestamps are the ISO-8601 strings date('c') produces.
 */
module Catalog {
  import opened Wrappers

  datatype Product = Product(
    id: int,
    name: string,
    description: string,
    price: real,
    originalPrice: Option<real>,
    category: string,
    rating: real,
    reviews: int,
    image: string,
    inStock: bool,
    stock: int,
    featured: bool,
    badges: seq<string>,
    createdAt: string,
    updatedAt: string)

  datatype Category = Category(
    id: string,
    name: string,
    description: string,
    image: string,
    active: bool,
    createdAt: string,
    updatedAt: string)

  /** One line of an order, copied verbatim from the request. */
  datatype OrderItem = OrderItem(productId: int, quantity: int, price: real)

  datatype Order = Order(
    id: string,
    items: seq<OrderItem>,
    subtotal: real,
    shipping: real,
    tax: real,
    total: real,
    customerInfo: map<string, string>,
    status: string,
    createdAt: string,
    updatedAt: string)

  /** The products with id `id`. */
  function HasId(id: int): Product -> bool {
    (p: Product) => p.id == id
  }

  /** The products filed under category `c`. */
  function InCategory(c: string): Product -> bool {
    (p: Product) => p.category == c
  }

  /** The key products are grouped by. */
  function CategoryOf(p: Product): string {
    p.category
  }

  /** The key orders are grouped by. */
  function StatusOf(o: Order): string {
    o.status
  }
}
