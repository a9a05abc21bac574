/**
 * The server's catalog operations besides the product query: product
 * validation, lookup, creation, update and deletion, category counts, order
 * intake and the counting part of the analytics. The three JSON files are the
 * fields of a `CatalogStore`; whether a write to disk succeeds is a parameter,
 * as are the generated id and the current time.
 */
module CatalogApi {
  import opened Wrappers
  import opened Seqs
  import Text
  import opened Php
  import opened Catalog
  import opened Tally

  /** What an operation answers: the data with a message, or a message with the validation errors (none for other failures). */
  datatype Response<T> = Success(message: string, data: T) | Failure(message: string, errors: seq<string>)

  /** A product as a request body carries it: every field may be missing or null (`None`). */
  datatype ProductInput = ProductInput(
    name: Option<string>,
    description: Option<string>,
    price: Option<Scalar>,
    originalPrice: Option<Scalar>,
    category: Option<string>,
    rating: Option<Scalar>,
    reviews: Option<Scalar>,
    image: Option<string>,
    inStock: Option<Scalar>,
    stock: Option<Scalar>,
    featured: Option<Scalar>,
    badges: Option<seq<string>>)

  const NameRequired := "Product name is required"
  const DescriptionRequired := "Product description is required"
  const PriceRequired := "Valid price is required"
  const CategoryRequired := "Product category is required"

  /** The numeric value PHP compares a numeric scalar by. */
  function NumericValue(v: Scalar): real {
    match v
    case Number(n) => n
    case Str(s) => FloatVal(s)
    case Flag(b) => if b then 1.0 else 0.0
  }

  /** A price or total is valid when it is set, numeric and above 0. */
  predicate PositiveAmount(v: Option<Scalar>) {
    v.Some? && IsNumeric(v.value) && NumericValue(v.value) > 0.0
  }

  predicate ProductValid(d: ProductInput) {
    !EmptyText(d.name) && !EmptyText(d.description) && PositiveAmount(d.price) && !EmptyText(d.category)
  }

  /** The position of a validation message in the order the rules are checked in. */
  function Rank(m: string): int {
    if m == NameRequired then 0
    else if m == DescriptionRequired then 1
    else if m == PriceRequired then 2
    else if m == CategoryRequired then 3
    else 4
  }

  /** The four messages are different texts, so each ranks where it belongs. */
  lemma MessagesDistinct()
    ensures NameRequired != DescriptionRequired && NameRequired != PriceRequired && NameRequired != CategoryRequired
    ensures DescriptionRequired != PriceRequired && DescriptionRequired != CategoryRequired && PriceRequired != CategoryRequired
    ensures Rank(NameRequired) == 0 && Rank(DescriptionRequired) == 1
    ensures Rank(PriceRequired) == 2 && Rank(CategoryRequired) == 3
  {
    assert NameRequired[8] == 'n' && DescriptionRequired[8] == 'd' && CategoryRequired[8] == 'c' && PriceRequired[0] == 'V';
  }

  /** The errors validateProduct reports, one message per broken rule in the order the rules are checked. */
  function ProductErrors(d: ProductInput): (errors: seq<string>)
    ensures |errors| <= 4
  {
    (if EmptyText(d.name) then [NameRequired] else [])
    + (if EmptyText(d.description) then [DescriptionRequired] else [])
    + (if !PositiveAmount(d.price) then [PriceRequired] else [])
    + (if EmptyText(d.category) then [CategoryRequired] else [])
  }

  /** Every broken rule is reported and no other: a message is in the errors exactly when its rule is broken. */
  lemma ProductErrorsReport(d: ProductInput)
    ensures (NameRequired in ProductErrors(d)) == EmptyText(d.name)
    ensures (DescriptionRequired in ProductErrors(d)) == EmptyText(d.description)
    ensures (PriceRequired in ProductErrors(d)) == !PositiveAmount(d.price)
    ensures (CategoryRequired in ProductErrors(d)) == EmptyText(d.category)
    ensures forall m :: m in ProductErrors(d) ==> Rank(m) < 4
    ensures ProductErrors(d) == [] <==> ProductValid(d)
  {
    MessagesDistinct();
  }

  /** The errors come in the order the rules are checked, so none is reported twice. */
  lemma ProductErrorsOrdered(d: ProductInput)
    ensures forall i, j :: 0 <= i < j < |ProductErrors(d)| ==> Rank(ProductErrors(d)[i]) < Rank(ProductErrors(d)[j])
  {
    MessagesDistinct();
  }

  /** validateProduct: pushes one message per broken rule. */
  method ValidateProduct(d: ProductInput) returns (errors: seq<string>)
    ensures errors == ProductErrors(d)
  {
    errors := [];
    if EmptyText(d.name) {
      errors := errors + [NameRequired];
    }
    if EmptyText(d.description) {
      errors := errors + [DescriptionRequired];
    }
    if !PositiveAmount(d.price) {
      errors := errors + [PriceRequired];
    }
    if EmptyText(d.category) {
      errors := errors + [CategoryRequired];
    }
  }

  /** A body with only a price is rejected: name, description and category are required on update too. */
  lemma PriceOnlyRejected(price: Scalar)
    requires PositiveAmount(Some(price))
    ensures ProductErrors(ProductInput(None, None, Some(price), None, None, None, None, None, None, None, None, None))
      == [NameRequired, DescriptionRequired, CategoryRequired]
  {
  }

  /** trim() with PHP's default character set. */
  function PhpTrim(s: string): string {
    Text.Trim(s, Text.IsPhpTrimmed)
  }

  /** The product createProduct stores for a valid body. */
  function NewProduct(d: ProductInput, id: int, now: string): (p: Product)
    ensures p.id == id && p.createdAt == now && p.updatedAt == now
    ensures p.price == ToFloat(d.price) && p.category == d.category.GetOr("")
    ensures p.name == PhpTrim(d.name.GetOr("")) && p.description == PhpTrim(d.description.GetOr(""))
    ensures d.originalPrice.None? <==> p.originalPrice.None?
    ensures d.originalPrice.Some? ==> p.originalPrice == Some(ToFloat(d.originalPrice))
    ensures d.rating.Some? ==> p.rating == ToFloat(d.rating)
    ensures d.reviews.Some? ==> p.reviews == ToInt(d.reviews)
    ensures d.image.Some? ==> p.image == d.image.value
    ensures d.inStock.Some? ==> p.inStock == ToBool(d.inStock)
    ensures d.stock.Some? ==> p.stock == ToInt(d.stock)
    ensures d.featured.Some? ==> p.featured == ToBool(d.featured)
    ensures d.badges.Some? ==> p.badges == d.badges.value
    ensures d.rating.None? ==> p.rating == 0.0
    ensures d.reviews.None? ==> p.reviews == 0
    ensures d.image.None? ==> p.image == ""
    ensures d.inStock.None? ==> p.inStock
    ensures d.stock.None? ==> p.stock == 0
    ensures d.featured.None? ==> !p.featured
    ensures d.badges.None? ==> p.badges == []
  {
    Product(
      id,
      PhpTrim(d.name.GetOr("")),
      PhpTrim(d.description.GetOr("")),
      ToFloat(d.price),
      if d.originalPrice.Some? then Some(ToFloat(d.originalPrice)) else None,
      d.category.GetOr(""),
      ToFloat(d.rating),
      ToInt(d.reviews),
      d.image.GetOr(""),
      if d.inStock.None? then true else ToBool(d.inStock),
      ToInt(d.stock),
      ToBool(d.featured),
      d.badges.GetOr([]),
      now,
      now)
  }

  /**
   * The product updateProduct writes back: the required fields and
   * originalPrice are overwritten, every other field keeps its old value when
   * the body leaves it out, and id and createdAt never change.
   */
  function Revised(prior: Product, d: ProductInput, now: string): (p: Product)
    ensures p.id == prior.id && p.createdAt == prior.createdAt && p.updatedAt == now
    ensures p.name == PhpTrim(d.name.GetOr("")) && p.description == PhpTrim(d.description.GetOr(""))
    ensures p.price == ToFloat(d.price) && p.category == d.category.GetOr("")
    ensures d.originalPrice.None? <==> p.originalPrice.None?
    ensures d.originalPrice.Some? ==> p.originalPrice == Some(ToFloat(d.originalPrice))
    ensures d.rating.Some? ==> p.rating == ToFloat(d.rating)
    ensures d.reviews.Some? ==> p.reviews == ToInt(d.reviews)
    ensures d.image.Some? ==> p.image == d.image.value
    ensures d.inStock.Some? ==> p.inStock == ToBool(d.inStock)
    ensures d.stock.Some? ==> p.stock == ToInt(d.stock)
    ensures d.featured.Some? ==> p.featured == ToBool(d.featured)
    ensures d.badges.Some? ==> p.badges == d.badges.value
  {
    var rating := if d.rating.Some? then ToFloat(d.rating) else prior.rating;
    var reviews := if d.reviews.Some? then ToInt(d.reviews) else prior.reviews;
    var inStock := if d.inStock.Some? then ToBool(d.inStock) else prior.inStock;
    var stock := if d.stock.Some? then ToInt(d.stock) else prior.stock;
    var featured := if d.featured.Some? then ToBool(d.featured) else prior.featured;
    Product(
      prior.id,
      PhpTrim(d.name.GetOr("")),
      PhpTrim(d.description.GetOr("")),
      ToFloat(d.price),
      if d.originalPrice.Some? then Some(ToFloat(d.originalPrice)) else None,
      d.category.GetOr(""),
      rating,
      reviews,
      d.image.GetOr(prior.image),
      inStock,
      stock,
      featured,
      d.badges.GetOr(prior.badges),
      prior.createdAt,
      now)
  }

  /** The optional fields the body leaves out keep their old values. */
  lemma RevisedKeeps(prior: Product, d: ProductInput, now: string)
    ensures var p := Revised(prior, d, now);
      && (d.rating.None? ==> p.rating == prior.rating)
      && (d.reviews.None? ==> p.reviews == prior.reviews)
      && (d.image.None? ==> p.image == prior.image)
      && (d.inStock.None? ==> p.inStock == prior.inStock)
      && (d.stock.None? ==> p.stock == prior.stock)
      && (d.featured.None? ==> p.featured == prior.featured)
      && (d.badges.None? ==> p.badges == prior.badges)
  {
  }

  function OtherId(id: int): Product -> bool {
    (p: Product) => p.id != id
  }

  /** The first product with id `id`, if any. */
  function Lookup(products: seq<Product>, id: int): (r: Option<Product>)
    ensures r.None? <==> forall i :: 0 <= i < |products| ==> products[i].id != id
    ensures r.Some? ==> r.value in products && r.value.id == id
  {
    var k := FirstIndex(products, HasId(id));
    if k < 0 then None else Some(products[k])
  }

  /** getProduct: scans the products in order and answers with the first whose id matches. */
  method GetProduct(products: seq<Product>, id: int) returns (r: Response<Product>)
    ensures r.Success? <==> exists i :: 0 <= i < |products| && products[i].id == id
    ensures r.Success? ==> r.data == Lookup(products, id).value
    ensures r.Failure? ==> r == Failure("Product not found", [])
  {
    var i := 0;
    while i < |products|
      invariant 0 <= i <= |products|
      invariant forall j :: 0 <= j < i ==> products[j].id != id
    {
      if products[i].id == id {
        FirstAt(products, HasId(id), i);
        return Success("", products[i]);
      }
      i := i + 1;
    }
    return Failure("Product not found", []);
  }

  /** An element that satisfies `p`, with none before it, is the first one. */
  lemma FirstAt<T>(s: seq<T>, p: T -> bool, i: nat)
    requires i < |s| && p(s[i])
    requires forall j :: 0 <= j < i ==> !p(s[j])
    ensures FirstIndex(s, p) == i
  {
  }

  /** A product appended under a fresh id is what a lookup of that id finds. */
  lemma {:induction false} CreateThenGet(products: seq<Product>, p: Product)
    requires forall i :: 0 <= i < |products| ==> products[i].id != p.id
    ensures Lookup(products + [p], p.id) == Some(p)
  {
    var s := products + [p];
    assert s[|products|] == p;
    FirstAt(s, HasId(p.id), |products|);
  }

  /** After the products with an id are removed, a lookup of that id finds nothing. */
  lemma DeleteThenGet(products: seq<Product>, id: int)
    ensures Lookup(Filter(products, OtherId(id)), id).None?
  {
  }

  /** A lookup of an updated product's id finds the revised product. */
  lemma UpdateThenGet(products: seq<Product>, k: nat, p: Product)
    requires k == FirstIndex(products, HasId(p.id)) && products[k].id == p.id
    ensures Lookup(products[k := p], p.id) == Some(p)
  {
    FirstAt(products[k := p], HasId(p.id), k);
  }

  /** A request body for an order. */
  datatype ItemsValue = ItemList(items: seq<OrderItem>) | NotAList(value: Scalar)

  datatype OrderInput = OrderInput(
    items: Option<ItemsValue>,
    subtotal: Option<Scalar>,
    shipping: Option<Scalar>,
    tax: Option<Scalar>,
    total: Option<Scalar>,
    customerInfo: Option<map<string, string>>)

  const ItemsRequired := "Order items are required"
  const TotalRequired := "Valid order total is required"

  /** The items are present and a non-empty list. */
  predicate HasItems(d: OrderInput) {
    d.items.Some? && d.items.value.ItemList? && d.items.value.items != []
  }

  /** The errors validateOrder reports, items first; both when both rules are broken. */
  function OrderErrors(d: OrderInput): (errors: seq<string>)
    ensures (ItemsRequired in errors) == !HasItems(d)
    ensures (TotalRequired in errors) == !PositiveAmount(d.total)
    ensures |errors| <= 2 && (|errors| == 2 ==> errors == [ItemsRequired, TotalRequired])
    ensures errors == [] <==> HasItems(d) && PositiveAmount(d.total)
  {
    (if !HasItems(d) then [ItemsRequired] else [])
    + (if !PositiveAmount(d.total) then [TotalRequired] else [])
  }

  /** validateOrder: pushes one message per broken rule. */
  method ValidateOrder(d: OrderInput) returns (errors: seq<string>)
    ensures errors == OrderErrors(d)
  {
    errors := [];
    if !HasItems(d) {
      errors := errors + [ItemsRequired];
    }
    if !PositiveAmount(d.total) {
      errors := errors + [TotalRequired];
    }
  }

  /** The order createOrder stores for a valid body: amounts through floatval(), status "pending". */
  function NewOrder(d: OrderInput, id: string, now: string): (o: Order)
    requires HasItems(d)
    ensures o.id == id && o.status == "pending" && o.createdAt == now && o.updatedAt == now
    ensures o.items == d.items.value.items && o.total == ToFloat(d.total)
    ensures o.subtotal == ToFloat(d.subtotal) && o.shipping == ToFloat(d.shipping) && o.tax == ToFloat(d.tax)
    ensures d.customerInfo.Some? ==> o.customerInfo == d.customerInfo.value
    ensures d.customerInfo.None? ==> o.customerInfo == map[]
  {
    Order(
      id,
      d.items.value.items,
      ToFloat(d.subtotal),
      ToFloat(d.shipping),
      ToFloat(d.tax),
      ToFloat(d.total),
      d.customerInfo.GetOr(map[]),
      "pending",
      now,
      now)
  }

  /** A category with the number of products filed under it, as getAllCategories answers it. */
  datatype CountedCategory = CountedCategory(category: Category, count: nat)

  /**
   * getAllCategories: each category, in stored order and otherwise unchanged,
   * with the number of products whose category is its id.
   */
  method GetAllCategories(categories: seq<Category>, products: seq<Product>) returns (r: seq<CountedCategory>)
    ensures |r| == |categories|
    ensures forall i :: 0 <= i < |r| ==>
      r[i].category == categories[i] && r[i].count == Occurrences(products, CategoryOf, categories[i].id)
  {
    r := [];
    for i := 0 to |categories|
      invariant |r| == i
      invariant forall j :: 0 <= j < i ==>
        r[j].category == categories[j] && r[j].count == Occurrences(products, CategoryOf, categories[j].id)
    {
      var kept := Filter(products, InCategory(categories[i].id));
      CategoryCount(products, categories[i].id);
      r := r + [CountedCategory(categories[i], |kept|)];
    }
  }

  /** count(array_filter(...)) over a category is the number of occurrences of that category. */
  lemma CategoryCount(products: seq<Product>, id: string)
    ensures |Filter(products, InCategory(id))| == Occurrences(products, CategoryOf, id)
  {
    OccurrencesFilter(products, CategoryOf, id);
    forall i | 0 <= i < |products|
      ensures InCategory(id)(products[i]) == KeyIs(CategoryOf, id)(products[i])
    {
      assert CategoryOf(products[i]) == products[i].category;
    }
    FilterSame(products, InCategory(id), KeyIs(CategoryOf, id));
  }

  /** The counting part of getAnalytics. */
  datatype Analytics = Analytics(
    totalProducts: nat,
    totalOrders: nat,
    categoryStats: seq<Entry>,
    recentOrders: seq<Order>)

  /**
   * The last ten orders (all of them when there are fewer), newest first:
   * the first ten of the reversed list.
   */
  function RecentOrders(orders: seq<Order>): (r: seq<Order>)
    ensures |r| == if |orders| < 10 then |orders| else 10
    ensures forall i :: 0 <= i < |r| ==> r[i] == orders[|orders| - 1 - i]
  {
    var n := if |orders| < 10 then |orders| else 10;
    Reverse(orders)[..n]
  }

  /** One pass of getAnalytics' loop: appending a new category or bumping a seen one tallies one more product. */
  lemma CategoryCountStep(products: seq<Product>, i: nat, stats: seq<Entry>, j: int)
    requires i < |products| && stats == CountBy(products[..i], CategoryOf)
    requires j == IndexOfKey(stats, products[i].category)
    ensures j < 0 ==> stats + [Entry(products[i].category, 1)] == CountBy(products[..i + 1], CategoryOf)
    ensures j >= 0 ==> stats[j := Entry(products[i].category, stats[j].count + 1)] == CountBy(products[..i + 1], CategoryOf)
  {
    CountByPrefix(products, i, CategoryOf);
    if j < 0 {
      BumpNew(stats, products[i].category);
    } else {
      BumpExisting(stats, products[i].category, j);
    }
  }

  /**
   * getAnalytics: the product and order counts, the number of products per
   * category (keys in order of first appearance, counts adding up to the
   * number of products) and the recent orders.
   */
  method GetAnalytics(products: seq<Product>, orders: seq<Order>) returns (a: Analytics)
    ensures a.totalProducts == |products| && a.totalOrders == |orders|
    ensures a.categoryStats == CountBy(products, CategoryOf)
    ensures Total(a.categoryStats) == a.totalProducts
    ensures a.recentOrders == RecentOrders(orders)
  {
    var stats: seq<Entry> := [];
    for i := 0 to |products|
      invariant stats == CountBy(products[..i], CategoryOf)
    {
      var category := products[i].category;
      var j := IndexOfKey(stats, category);
      CategoryCountStep(products, i, stats, j);
      if j < 0 {
        stats := stats + [Entry(category, 1)];
      } else {
        stats := stats[j := Entry(category, stats[j].count + 1)];
      }
    }
    assert products[..|products|] == products;
    a := Analytics(|products|, |orders|, stats, RecentOrders(orders));
  }

  /** The JSON files behind the API: products, categories and orders. */
  class CatalogStore {
    var products: seq<Product>
    var categories: seq<Category>
    var orders: seq<Order>

    constructor(products: seq<Product>, categories: seq<Category>, orders: seq<Order>)
      ensures this.products == products && this.categories == categories && this.orders == orders
    {
      this.products := products;
      this.categories := categories;
      this.orders := orders;
    }

    /**
     * createProduct: an invalid body changes nothing and reports every error;
     * otherwise the new product is appended, provided the file is written.
     */
    method CreateProduct(d: ProductInput, id: int, now: string, saved: bool) returns (r: Response<Product>)
      modifies this`products
      ensures !ProductValid(d) ==> products == old(products) && r == Failure("Validation failed", ProductErrors(d))
      ensures ProductValid(d) && saved ==>
        products == old(products) + [NewProduct(d, id, now)]
        && r == Success("Product created successfully", NewProduct(d, id, now))
      ensures ProductValid(d) && !saved ==> products == old(products) && r == Failure("Failed to save product", [])
    {
      var errors := ValidateProduct(d);
      if errors != [] {
        return Failure("Validation failed", errors);
      }
      var product := NewProduct(d, id, now);
      var updated := products + [product];
      if saved {
        products := updated;
        return Success("Product created successfully", product);
      }
      return Failure("Failed to save product", []);
    }

    /**
     * updateProduct: an invalid body or an unknown id changes nothing;
     * otherwise only the first product with that id is revised.
     */
    method UpdateProduct(id: int, d: ProductInput, now: string, saved: bool) returns (r: Response<Product>)
      modifies this`products
      ensures !ProductValid(d) ==> products == old(products) && r == Failure("Validation failed", ProductErrors(d))
      ensures ProductValid(d) && Lookup(old(products), id).None? ==>
        products == old(products) && r == Failure("Product not found", [])
      ensures ProductValid(d) && Lookup(old(products), id).Some? ==>
        var k := FirstIndex(old(products), HasId(id));
        0 <= k < |old(products)|
        && (saved ==>
              products == old(products)[k := Revised(old(products)[k], d, now)]
              && r == Success("Product updated successfully", Revised(old(products)[k], d, now)))
        && (!saved ==> products == old(products) && r == Failure("Failed to save product", []))
    {
      var errors := ValidateProduct(d);
      if errors != [] {
        return Failure("Validation failed", errors);
      }
      var i := 0;
      while i < |products|
        invariant 0 <= i <= |products|
        invariant products == old(products)
        invariant forall j :: 0 <= j < i ==> products[j].id != id
      {
        if products[i].id == id {
          FirstAt(products, HasId(id), i);
          var revised := Revised(products[i], d, now);
          var updated := products[i := revised];
          if saved {
            products := updated;
            return Success("Product updated successfully", revised);
          }
          return Failure("Failed to save product", []);
        }
        i := i + 1;
      }
      return Failure("Product not found", []);
    }

    /**
     * deleteProduct: removes every product with that id, keeping the others
     * in order; reports not found exactly when none has it.
     */
    method DeleteProduct(id: int, saved: bool) returns (r: Response<()>)
      modifies this`products
      ensures Lookup(old(products), id).None? ==> products == old(products) && r == Failure("Product not found", [])
      ensures Lookup(old(products), id).Some? && saved ==>
        products == Filter(old(products), OtherId(id)) && r == Success("Product deleted successfully", ())
      ensures Lookup(old(products), id).Some? && !saved ==>
        products == old(products) && r == Failure("Failed to delete product", [])
    {
      var originalCount := |products|;
      var remaining := Filter(products, OtherId(id));
      FilterDropsId(products, id);
      if |remaining| < originalCount {
        if saved {
          products := remaining;
          return Success("Product deleted successfully", ());
        }
        return Failure("Failed to delete product", []);
      }
      return Failure("Product not found", []);
    }

    /**
     * createOrder: an invalid body changes nothing; otherwise the new pending
     * order is appended, provided the file is written.
     */
    method CreateOrder(d: OrderInput, id: string, now: string, saved: bool) returns (r: Response<Order>)
      modifies this`orders
      ensures OrderErrors(d) != [] ==> orders == old(orders) && r == Failure("Validation failed", OrderErrors(d))
      ensures OrderErrors(d) == [] && saved ==>
        orders == old(orders) + [NewOrder(d, id, now)]
        && r == Success("Order created successfully", NewOrder(d, id, now))
      ensures OrderErrors(d) == [] && !saved ==> orders == old(orders) && r == Failure("Failed to save order", [])
    {
      var errors := ValidateOrder(d);
      if errors != [] {
        return Failure("Validation failed", errors);
      }
      var order := NewOrder(d, id, now);
      var updated := orders + [order];
      if saved {
        orders := updated;
        return Success("Order created successfully", order);
      }
      return Failure("Failed to save order", []);
    }
  }

  /** Filtering out an id shortens the list exactly when some product has that id. */
  lemma {:induction false} FilterDropsId(products: seq<Product>, id: int)
    ensures |Filter(products, OtherId(id))| < |products| <==> Lookup(products, id).Some?
  {
    if products != [] {
      FilterDropsId(products[1..], id);
      var rest := products[1..];
      assert Lookup(products, id).Some? <==> products[0].id == id || Lookup(rest, id).Some? by {
        if Lookup(rest, id).Some? {
          var j :| 0 <= j < |rest| && rest[j].id == id;
          assert products[j + 1].id == id;
        }
      }
    }
  }
}
