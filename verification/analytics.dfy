/**
 * The counting parts of the offline analytics report (class
 * EcommerceAnalytics of backend_ecom/ecommerce_analytics.py): stock and
 * featured counts, per-category tallies, price and rating buckets, order
 * counts by status, the top-N products and the stock levels. The loaded
 * JSON lists are parameters; averages, medians and rounding are left out.
 */
module OfflineAnalytics {
  import opened Wrappers
  import opened Seqs
  import opened Catalog
  import opened Sorting
  import opened Tally

  // ---------------------------------------------------------------- product stats

  datatype ProductStats = ProductStats(totalProducts: nat, inStockCount: nat, outOfStockCount: int, featuredCount: nat)

  function InStock(): Product -> bool {
    (p: Product) => p.inStock
  }

  function OutOfStock(): Product -> bool {
    (p: Product) => !p.inStock
  }

  function Featured(): Product -> bool {
    (p: Product) => p.featured
  }

  /**
   * get_product_stats, counts only: all zero without products; otherwise the
   * out-of-stock count (computed as total minus in-stock) is the number of
   * products not in stock, and the featured count is at most the total.
   */
  function GetProductStats(products: seq<Product>): (st: ProductStats)
    ensures products == [] ==> st == ProductStats(0, 0, 0, 0)
    ensures st.totalProducts == |products|
    ensures st.outOfStockCount == |Filter(products, OutOfStock())| >= 0
    ensures st.inStockCount + st.outOfStockCount == st.totalProducts
    ensures st.inStockCount == |Filter(products, InStock())|
    ensures st.featuredCount == |Filter(products, Featured())| <= st.totalProducts
  {
    if products == [] then ProductStats(0, 0, 0, 0)
    else
      var totalProducts := |products|;
      var inStockCount := |Filter(products, InStock())|;
      FilterSplit(products, InStock(), OutOfStock());
      ProductStats(totalProducts, inStockCount, totalProducts - inStockCount, |Filter(products, Featured())|)
  }

  // ---------------------------------------------------------------- categories

  /** The per-category counters of get_category_analysis (the averages are left out). */
  datatype CategoryStats = CategoryStats(category: string, count: nat, totalValue: real, totalReviews: int)

  /** The category and count of each entry, as a tally. */
  function Counts(stats: seq<CategoryStats>): (t: seq<Entry>)
    ensures |t| == |stats|
    ensures forall j :: 0 <= j < |stats| ==> t[j] == Entry(stats[j].category, stats[j].count)
  {
    seq(|stats|, j requires 0 <= j < |stats| => Entry(stats[j].category, stats[j].count))
  }

  /** The reviews of the products of category `c`, summed in list order. */
  function ReviewsIn(xs: seq<Product>, c: string): int {
    if xs == [] then 0
    else ReviewsIn(xs[..|xs| - 1], c) + (if xs[|xs| - 1].category == c then xs[|xs| - 1].reviews else 0)
  }

  /** The prices of the products of category `c`, summed in list order. */
  function ValueIn(xs: seq<Product>, c: string): real {
    if xs == [] then 0.0
    else ValueIn(xs[..|xs| - 1], c) + (if xs[|xs| - 1].category == c then xs[|xs| - 1].price else 0.0)
  }

  /** The reviews of all of `xs`. */
  function ReviewSum(xs: seq<Product>): int {
    if xs == [] then 0 else ReviewSum(xs[..|xs| - 1]) + xs[|xs| - 1].reviews
  }

  /** A category's review total is the review sum of the products the category filter keeps. */
  lemma {:induction false} ReviewsInFilter(xs: seq<Product>, c: string)
    ensures ReviewsIn(xs, c) == ReviewSum(Filter(xs, InCategory(c)))
  {
    if xs != [] {
      var n := |xs| - 1;
      ReviewsInFilter(xs[..n], c);
      var kept := Filter(xs[..n], InCategory(c));
      assert Filter(xs, InCategory(c)) == kept + (if xs[n].category == c then [xs[n]] else []) by {
        assert xs == xs[..n] + [xs[n]];
        FilterSnoc(xs[..n], xs[n], InCategory(c));
      }
      if xs[n].category == c {
        assert (kept + [xs[n]])[..|kept|] == kept;
      } else {
        assert kept + [] == kept;
      }
    }
  }

  /** A category no product of `xs` has gathers no reviews and no value. */
  lemma {:induction false} NothingInCategory(xs: seq<Product>, c: string)
    requires Occurrences(xs, CategoryOf, c) == 0
    ensures ReviewsIn(xs, c) == 0 && ValueIn(xs, c) == 0.0
  {
    if xs != [] {
      NothingInCategory(xs[..|xs| - 1], c);
    }
  }

  /** `stats` is what get_category_analysis has gathered after the products `seen`. */
  predicate Summarises(stats: seq<CategoryStats>, seen: seq<Product>) {
    Counts(stats) == CountBy(seen, CategoryOf) && SumsMatch(stats, seen)
  }

  /** Each entry's review and value totals are its category's sums over `seen`. */
  predicate SumsMatch(stats: seq<CategoryStats>, seen: seq<Product>) {
    forall j :: 0 <= j < |stats| ==>
      stats[j].totalReviews == ReviewsIn(seen, stats[j].category)
      && stats[j].totalValue == ValueIn(seen, stats[j].category)
  }

  /** Adding a product adds its reviews and price to its own category only. */
  lemma SumsSnoc(seen: seq<Product>, p: Product, c: string)
    ensures ReviewsIn(seen + [p], c) == ReviewsIn(seen, c) + (if p.category == c then p.reviews else 0)
    ensures ValueIn(seen + [p], c) == ValueIn(seen, c) + (if p.category == c then p.price else 0.0)
  {
    assert (seen + [p])[..|seen|] == seen;
  }

  /** The entry of `p`'s category, after `p` is added to it. */
  function Grown(e: CategoryStats, p: Product): CategoryStats {
    CategoryStats(p.category, e.count + 1, e.totalValue + p.price, e.totalReviews + p.reviews)
  }

  lemma CountsAppend(stats: seq<CategoryStats>, e: CategoryStats)
    ensures Counts(stats + [e]) == Counts(stats) + [Entry(e.category, e.count)]
  {
  }

  lemma CountsUpdate(stats: seq<CategoryStats>, j: nat, e: CategoryStats)
    requires j < |stats|
    ensures Counts(stats[j := e]) == Counts(stats)[j := Entry(e.category, e.count)]
  {
  }

  /** A product of a category already present updates that category's entry alone. */
  lemma GrowCategory(stats: seq<CategoryStats>, p: Product, seen: seq<Product>, j: nat)
    requires Summarises(stats, seen) && j < |stats| && stats[j].category == p.category
    ensures Summarises(stats[j := Grown(stats[j], p)], seen + [p])
  {
    GrowCounts(stats, p, seen, j);
    GrowSums(stats, p, seen, j);
  }

  lemma GrowCounts(stats: seq<CategoryStats>, p: Product, seen: seq<Product>, j: nat)
    requires Counts(stats) == CountBy(seen, CategoryOf) && j < |stats| && stats[j].category == p.category
    ensures Counts(stats[j := Grown(stats[j], p)]) == CountBy(seen + [p], CategoryOf)
    ensures forall i :: 0 <= i < |stats| && i != j ==> stats[i].category != p.category
  {
    var t := Counts(stats);
    CountBySnoc(seen, p, CategoryOf);
    BumpExisting(t, p.category, j);
    CountsUpdate(stats, j, Grown(stats[j], p));
    assert DistinctKeys(t);
  }

  lemma GrowSums(stats: seq<CategoryStats>, p: Product, seen: seq<Product>, j: nat)
    requires SumsMatch(stats, seen) && j < |stats| && stats[j].category == p.category
    requires forall i :: 0 <= i < |stats| && i != j ==> stats[i].category != p.category
    ensures SumsMatch(stats[j := Grown(stats[j], p)], seen + [p])
  {
    var next := stats[j := Grown(stats[j], p)];
    forall i | 0 <= i < |next|
      ensures next[i].totalReviews == ReviewsIn(seen + [p], next[i].category)
      ensures next[i].totalValue == ValueIn(seen + [p], next[i].category)
    {
      SumsSnoc(seen, p, next[i].category);
    }
  }

  /** A product of a category not yet present appends a new entry for it. */
  lemma NewCategory(stats: seq<CategoryStats>, p: Product, seen: seq<Product>)
    requires Summarises(stats, seen) && IndexOfKey(Counts(stats), p.category) < 0
    ensures Summarises(stats + [CategoryStats(p.category, 1, p.price, p.reviews)], seen + [p])
  {
    NewCounts(stats, p, seen);
    NothingInCategory(seen, p.category);
    NewSums(stats, p, seen);
  }

  lemma NewCounts(stats: seq<CategoryStats>, p: Product, seen: seq<Product>)
    requires Counts(stats) == CountBy(seen, CategoryOf) && IndexOfKey(Counts(stats), p.category) < 0
    ensures Counts(stats + [CategoryStats(p.category, 1, p.price, p.reviews)]) == CountBy(seen + [p], CategoryOf)
    ensures Occurrences(seen, CategoryOf, p.category) == 0
    ensures forall i :: 0 <= i < |stats| ==> stats[i].category != p.category
  {
    var t := Counts(stats);
    CountBySnoc(seen, p, CategoryOf);
    BumpNew(t, p.category);
    CountsAppend(stats, CategoryStats(p.category, 1, p.price, p.reviews));
    Unseen(seen, CategoryOf, t, p.category);
    assert !HasKey(t, p.category);
  }

  lemma NewSums(stats: seq<CategoryStats>, p: Product, seen: seq<Product>)
    requires SumsMatch(stats, seen) && ReviewsIn(seen, p.category) == 0 && ValueIn(seen, p.category) == 0.0
    requires forall i :: 0 <= i < |stats| ==> stats[i].category != p.category
    ensures SumsMatch(stats + [CategoryStats(p.category, 1, p.price, p.reviews)], seen + [p])
  {
    var next := stats + [CategoryStats(p.category, 1, p.price, p.reviews)];
    forall i | 0 <= i < |next|
      ensures next[i].totalReviews == ReviewsIn(seen + [p], next[i].category)
      ensures next[i].totalValue == ValueIn(seen + [p], next[i].category)
    {
      SumsSnoc(seen, p, next[i].category);
    }
  }

  /** One iteration of the loop: the product's category gets one more product, its price and its reviews. */
  method AddToCategory(stats: seq<CategoryStats>, p: Product, ghost seen: seq<Product>) returns (next: seq<CategoryStats>)
    requires Summarises(stats, seen)
    ensures Summarises(next, seen + [p])
  {
    var j := IndexOfKey(Counts(stats), p.category);
    if j >= 0 {
      GrowCategory(stats, p, seen, j);
      next := stats[j := Grown(stats[j], p)];
    } else {
      NewCategory(stats, p, seen);
      next := stats + [CategoryStats(p.category, 1, p.price, p.reviews)];
    }
  }

  /**
   * get_category_analysis: one entry per category in order of first
   * appearance; its count is the number of the category's products (the
   * counts adding up to the number of products), its review and value
   * totals the sums over those products.
   */
  method CategoryAnalysis(products: seq<Product>) returns (stats: seq<CategoryStats>)
    ensures Counts(stats) == CountBy(products, CategoryOf)
    ensures Total(Counts(stats)) == |products|
    ensures forall j :: 0 <= j < |stats| ==>
      stats[j].totalReviews == ReviewsIn(products, stats[j].category)
      && stats[j].totalValue == ValueIn(products, stats[j].category)
    ensures forall p :: p in products ==> exists j :: 0 <= j < |stats| && stats[j].category == p.category
  {
    stats := [];
    for i := 0 to |products|
      invariant Summarises(stats, products[..i])
    {
      PrefixSnoc(products, i);
      stats := AddToCategory(stats, products[i], products[..i]);
    }
    assert products[..|products|] == products;
    SummaryComplete(stats, products);
  }

  /** What a summary of all the products says, spelled out. */
  lemma SummaryComplete(stats: seq<CategoryStats>, products: seq<Product>)
    requires Summarises(stats, products)
    ensures Total(Counts(stats)) == |products|
    ensures forall j :: 0 <= j < |stats| ==>
      stats[j].totalReviews == ReviewsIn(products, stats[j].category)
      && stats[j].totalValue == ValueIn(products, stats[j].category)
    ensures forall p :: p in products ==> exists j :: 0 <= j < |stats| && stats[j].category == p.category
  {
    forall p | p in products
      ensures exists j :: 0 <= j < |stats| && stats[j].category == p.category
    {
      var i :| 0 <= i < |products| && products[i] == p;
      assert HasKey(Counts(stats), CategoryOf(products[i]));
    }
  }

  // ---------------------------------------------------------------- price buckets

  datatype PriceRanges = PriceRanges(under25: nat, from25To50: nat, from50To100: nat, over100: nat)

  datatype PriceAnalysis = PriceAnalysis(minPrice: real, maxPrice: real, priceRanges: PriceRanges)

  function PriceBelow(bound: real): Product -> bool {
    (p: Product) => p.price < bound
  }

  function PriceFrom(low: real, high: real): Product -> bool {
    (p: Product) => low <= p.price < high
  }

  function PriceAtLeast(bound: real): Product -> bool {
    (p: Product) => p.price >= bound
  }

  /** Python's min() of the prices. */
  function MinPrice(ps: seq<Product>): (m: real)
    requires ps != []
    ensures exists i :: 0 <= i < |ps| && ps[i].price == m
    ensures forall i :: 0 <= i < |ps| ==> m <= ps[i].price
  {
    if |ps| == 1 then ps[0].price
    else
      var m := MinPrice(ps[1..]);
      assert forall i :: 1 <= i < |ps| ==> ps[i] == ps[1..][i - 1];
      if ps[0].price <= m then ps[0].price else m
  }

  /** Python's max() of the prices. */
  function MaxPrice(ps: seq<Product>): (m: real)
    requires ps != []
    ensures exists i :: 0 <= i < |ps| && ps[i].price == m
    ensures forall i :: 0 <= i < |ps| ==> ps[i].price <= m
  {
    if |ps| == 1 then ps[0].price
    else
      var m := MaxPrice(ps[1..]);
      assert forall i :: 1 <= i < |ps| ==> ps[i] == ps[1..][i - 1];
      if ps[0].price >= m then ps[0].price else m
  }

  /** The four price ranges of get_price_analysis. */
  function CountPriceRanges(products: seq<Product>): PriceRanges {
    PriceRanges(
      |Filter(products, PriceBelow(25.0))|,
      |Filter(products, PriceFrom(25.0, 50.0))|,
      |Filter(products, PriceFrom(50.0, 100.0))|,
      |Filter(products, PriceAtLeast(100.0))|)
  }

  /** The four price ranges partition the products: their counts add up to the number of products. */
  lemma {:induction false} PriceRangesPartition(products: seq<Product>)
    ensures var r := CountPriceRanges(products);
      r.under25 + r.from25To50 + r.from50To100 + r.over100 == |products|
  {
    if products != [] {
      PriceRangesPartition(products[1..]);
    }
  }

  /**
   * get_price_analysis without the median: nothing (`{}`) without products;
   * otherwise the lowest and highest price, both attained, and the bucket
   * counts, which add up to the number of products.
   */
  function GetPriceAnalysis(products: seq<Product>): (r: Option<PriceAnalysis>)
    ensures r.None? <==> products == []
    ensures r.Some? ==> r.value.priceRanges == CountPriceRanges(products)
    ensures r.Some? ==> var b := r.value.priceRanges;
      b.under25 + b.from25To50 + b.from50To100 + b.over100 == |products|
    ensures r.Some? ==>
      (exists i :: 0 <= i < |products| && products[i].price == r.value.minPrice)
      && (exists i :: 0 <= i < |products| && products[i].price == r.value.maxPrice)
      && forall i :: 0 <= i < |products| ==> r.value.minPrice <= products[i].price <= r.value.maxPrice
  {
    if products == [] then None
    else
      PriceRangesPartition(products);
      Some(PriceAnalysis(MinPrice(products), MaxPrice(products), CountPriceRanges(products)))
  }

  // ---------------------------------------------------------------- rating buckets

  datatype RatingDistribution = RatingDistribution(fiveStars: nat, fourStars: nat, threeStars: nat, twoStars: nat, oneStar: nat)

  function RatingAtLeast(bound: real): Product -> bool {
    (p: Product) => p.rating >= bound
  }

  function RatingFrom(low: real, high: real): Product -> bool {
    (p: Product) => low <= p.rating < high
  }

  function RatingBelow(bound: real): Product -> bool {
    (p: Product) => p.rating < bound
  }

  /** The five rating buckets of get_rating_analysis. */
  function CountRatings(products: seq<Product>): RatingDistribution {
    RatingDistribution(
      |Filter(products, RatingAtLeast(4.5))|,
      |Filter(products, RatingFrom(4.0, 4.5))|,
      |Filter(products, RatingFrom(3.0, 4.0))|,
      |Filter(products, RatingFrom(2.0, 3.0))|,
      |Filter(products, RatingBelow(2.0))|)
  }

  /** The five rating buckets partition the products. */
  lemma {:induction false} RatingBucketsPartition(products: seq<Product>)
    ensures var r := CountRatings(products);
      r.fiveStars + r.fourStars + r.threeStars + r.twoStars + r.oneStar == |products|
  {
    if products != [] {
      RatingBucketsPartition(products[1..]);
    }
  }

  /** get_rating_analysis without the mean and median: nothing without products, otherwise the five bucket counts. */
  function GetRatingAnalysis(products: seq<Product>): (r: Option<RatingDistribution>)
    ensures r.None? <==> products == []
    ensures r.Some? ==> r.value == CountRatings(products)
    ensures r.Some? ==> r.value.fiveStars + r.value.fourStars + r.value.threeStars + r.value.twoStars + r.value.oneStar == |products|
  {
    if products == [] then None
    else
      RatingBucketsPartition(products);
      Some(CountRatings(products))
  }

  // ---------------------------------------------------------------- sales

  /** The order counts of get_sales_analysis (revenue figures are left out). */
  datatype SalesAnalysis = SalesAnalysis(totalOrders: nat, ordersByStatus: seq<Entry>)

  /**
   * get_sales_analysis, counts only: no orders gives zero and an empty
   * status map; otherwise one entry per status counting its orders, the
   * counts adding up to the number of orders.
   */
  function GetSalesAnalysis(orders: seq<Order>): (r: SalesAnalysis)
    ensures orders == [] ==> r == SalesAnalysis(0, [])
    ensures r.totalOrders == |orders|
    ensures DistinctKeys(r.ordersByStatus)
    ensures forall i :: 0 <= i < |r.ordersByStatus| ==>
      r.ordersByStatus[i].count == Occurrences(orders, StatusOf, r.ordersByStatus[i].key) > 0
    ensures forall o :: o in orders ==> HasKey(r.ordersByStatus, o.status)
    ensures Total(r.ordersByStatus) == r.totalOrders
  {
    if orders == [] then SalesAnalysis(0, [])
    else
      var byStatus := CountBy(orders, StatusOf);
      assert forall o :: o in orders ==> HasKey(byStatus, StatusOf(o));
      SalesAnalysis(|orders|, byStatus)
  }

  // ---------------------------------------------------------------- top products

  /** The sort_by values get_top_products sorts by, all descending; others keep the list order. */
  function TopSortKey(sortBy: string): (k: Option<SortKey>)
    ensures k == Some(RatingHighToLow) <==> sortBy == "rating"
    ensures k == Some(ReviewsHighToLow) <==> sortBy == "reviews"
    ensures k == Some(PriceHighToLow) <==> sortBy == "price"
    ensures k.None? <==> sortBy != "rating" && sortBy != "reviews" && sortBy != "price"
  {
    if sortBy == "rating" then Some(RatingHighToLow)
    else if sortBy == "reviews" then Some(ReviewsHighToLow)
    else if sortBy == "price" then Some(PriceHighToLow)
    else None
  }

  /** The length of `s[:limit]` in Python: a negative limit counts from the end. */
  function PrefixLength(n: nat, limit: int): (m: nat)
    ensures m <= n
    ensures 0 <= limit ==> m == if limit < n then limit else n
    ensures limit < 0 ==> m + (if -limit < n then -limit else n) == n
  {
    if limit >= 0 then (if limit < n then limit else n)
    else if n + limit < 0 then 0 else n + limit
  }

  /** get_top_products: the first `limit` products (Python slice) of the list sorted by the chosen key, or of the list itself. */
  function TopProducts(products: seq<Product>, limit: int, sortBy: string): (r: seq<Product>)
    ensures |r| == PrefixLength(|products|, limit)
    ensures 0 <= limit ==> |r| == if limit < |products| then limit else |products|
    ensures limit < 0 ==> |r| == if |products| + limit < 0 then 0 else |products| + limit
    ensures TopSortKey(sortBy).None? ==> r == products[..|r|]
    ensures TopSortKey(sortBy).Some? ==> r == SortBy(TopSortKey(sortBy).value, products)[..|r|]
  {
    if products == [] then []
    else
      var sorted := match TopSortKey(sortBy)
        case Some(k) => SortBy(k, products)
        case None => products;
      sorted[..PrefixLength(|sorted|, limit)]
  }

  /**
   * The top products are ranked by the chosen key, are taken from the
   * products, and rank no lower than any product left out.
   */
  lemma TopAreBest(products: seq<Product>, limit: int, sortBy: string)
    requires TopSortKey(sortBy).Some?
    ensures var k := TopSortKey(sortBy).value;
      var top := TopProducts(products, limit, sortBy);
      SortedBy(k, top)
      && multiset(top) <= multiset(products)
      && forall x, y :: x in top && y in multiset(products) - multiset(top) ==> Precedes(k, x, y)
  {
    var k := TopSortKey(sortBy).value;
    var top := TopProducts(products, limit, sortBy);
    var sorted := SortBy(k, products);
    PrefixIsBest(k, sorted, |top|);
  }

  /**
   * What each sort_by value asks of the top products: "rating", "reviews"
   * and "price" rank them by that field from highest to lowest; any other
   * value takes them in list order.
   */
  lemma TopKeyOrders(products: seq<Product>, limit: int, sortBy: string)
    ensures var top := TopProducts(products, limit, sortBy);
      sortBy == "rating" ==> forall i, j :: 0 <= i < j < |top| ==> top[i].rating >= top[j].rating
    ensures var top := TopProducts(products, limit, sortBy);
      sortBy == "reviews" ==> forall i, j :: 0 <= i < j < |top| ==> top[i].reviews >= top[j].reviews
    ensures var top := TopProducts(products, limit, sortBy);
      sortBy == "price" ==> forall i, j :: 0 <= i < j < |top| ==> top[i].price >= top[j].price
    ensures var top := TopProducts(products, limit, sortBy);
      sortBy != "rating" && sortBy != "reviews" && sortBy != "price" ==> top == products[..|top|]
  {
    var top := TopProducts(products, limit, sortBy);
    if TopSortKey(sortBy).Some? {
      TopAreBest(products, limit, sortBy);
      SortedByMeans(TopSortKey(sortBy).value, top);
    }
  }

  /** A prefix of a sorted list is sorted, and ranks no lower than what follows it. */
  lemma PrefixIsBest(k: SortKey, sorted: seq<Product>, m: nat)
    requires SortedBy(k, sorted) && m <= |sorted|
    ensures SortedBy(k, sorted[..m])
    ensures multiset(sorted) - multiset(sorted[..m]) == multiset(sorted[m..])
    ensures forall x, y :: x in sorted[..m] && y in multiset(sorted[m..]) ==> Precedes(k, x, y)
  {
    var top := sorted[..m];
    var rest := sorted[m..];
    assert sorted == top + rest;
    forall x, y | x in top && y in multiset(rest)
      ensures Precedes(k, x, y)
    {
      var i :| 0 <= i < |top| && top[i] == x;
      var j :| 0 <= j < |rest| && rest[j] == y;
      assert sorted[i] == x && sorted[m + j] == y;
    }
  }

  /** With no products there are no top products, whatever the limit and key. */
  lemma NoProductsNoTop(limit: int, sortBy: string)
    ensures TopProducts([], limit, sortBy) == []
  {
  }

  // ---------------------------------------------------------------- inventory

  datatype Inventory = Inventory(
    totalStockValue: real,
    totalStockUnits: int,
    lowStockCount: nat,
    outOfStockCount: nat,
    lowStockProducts: seq<string>,
    outOfStockProducts: seq<string>)

  function LowStock(): Product -> bool {
    (p: Product) => p.stock < 10
  }

  function NoStock(): Product -> bool {
    (p: Product) => p.stock == 0
  }

  function HasStock(): Product -> bool {
    (p: Product) => p.stock != 0
  }

  /** The units in stock, summed from the first product. */
  function StockSum(ps: seq<Product>): int {
    if ps == [] then 0 else ps[0].stock + StockSum(ps[1..])
  }

  /** The price of the stock, summed from the first product. */
  function StockValue(ps: seq<Product>): real {
    if ps == [] then 0.0 else ps[0].price * ps[0].stock as real + StockValue(ps[1..])
  }

  /** The names of `ps`, in order. */
  function Names(ps: seq<Product>): (ns: seq<string>)
    ensures |ns| == |ps|
    ensures forall i :: 0 <= i < |ps| ==> ns[i] == ps[i].name
  {
    seq(|ps|, i requires 0 <= i < |ps| => ps[i].name)
  }

  /** Products out of stock add nothing to the units in stock. */
  lemma {:induction false} StockWithoutEmpty(ps: seq<Product>)
    ensures StockSum(ps) == StockSum(Filter(ps, HasStock()))
  {
    if ps != [] {
      StockWithoutEmpty(ps[1..]);
      var kept := Filter(ps[1..], HasStock());
      if ps[0].stock != 0 {
        assert ([ps[0]] + kept)[1..] == kept;
      } else {
        assert [] + kept == kept;
      }
    }
  }

  /** Products out of stock add nothing to the value of the stock. */
  lemma {:induction false} StockValueWithoutEmpty(ps: seq<Product>)
    ensures StockValue(ps) == StockValue(Filter(ps, HasStock()))
  {
    if ps != [] {
      StockValueWithoutEmpty(ps[1..]);
      var kept := Filter(ps[1..], HasStock());
      if ps[0].stock != 0 {
        assert ([ps[0]] + kept)[1..] == kept;
      } else {
        assert [] + kept == kept;
      }
    }
  }

  /** Every product out of stock is a low-stock product too, so its name is among theirs. */
  lemma OutOfStockAreLow(products: seq<Product>)
    ensures |Filter(products, NoStock())| <= |Filter(products, LowStock())|
    ensures forall n :: n in Names(Filter(products, NoStock())) ==> n in Names(Filter(products, LowStock()))
  {
    var low := Filter(products, LowStock());
    var out := Filter(products, NoStock());
    FilterNarrower(products, NoStock(), LowStock());
    FilterMembers(low, NoStock());
    forall n | n in Names(out) ensures n in Names(low) {
      var i :| 0 <= i < |out| && Names(out)[i] == n;
      assert out[i] in Filter(low, NoStock());
      var k :| 0 <= k < |low| && low[k] == out[i];
      assert Names(low)[k] == n;
    }
  }

  /**
   * get_inventory_analysis: nothing without products; otherwise every
   * out-of-stock product (stock 0) is also a low-stock product (stock
   * below 10), so there are at most as many of the first as of the second.
   */
  function GetInventoryAnalysis(products: seq<Product>): (r: Option<Inventory>)
    ensures r.None? <==> products == []
    ensures r.Some? ==> r.value.outOfStockCount <= r.value.lowStockCount
    ensures r.Some? ==> forall n :: n in r.value.outOfStockProducts ==> n in r.value.lowStockProducts
    ensures r.Some? ==> |r.value.lowStockProducts| == r.value.lowStockCount && |r.value.outOfStockProducts| == r.value.outOfStockCount
    ensures r.Some? ==> r.value.lowStockProducts == Names(Filter(products, LowStock()))
    ensures r.Some? ==> r.value.outOfStockProducts == Names(Filter(products, NoStock()))
    ensures r.Some? ==> r.value.totalStockUnits == StockSum(products) == StockSum(Filter(products, HasStock()))
    ensures r.Some? ==> r.value.totalStockValue == StockValue(products) == StockValue(Filter(products, HasStock()))
  {
    if products == [] then None
    else
      var low := Filter(products, LowStock());
      var out := Filter(products, NoStock());
      OutOfStockAreLow(products);
      StockWithoutEmpty(products);
      StockValueWithoutEmpty(products);
      Some(Inventory(StockValue(products), StockSum(products), |low|, |out|, Names(low), Names(out)))
  }
}
