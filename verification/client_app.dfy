/**
 * The browser client's state (class EcommerceApp of frontend/script.js):
 * the product list, the shopping cart, the filtered and sorted product list
 * the grid shows, and the current page. DOM reads become parameters; saving
 * the cart to localStorage and re-rendering are left out.
 */
module ClientApp {
  import opened Wrappers
  import opened Seqs
  import Text
  import opened Catalog
  import opened Sorting
  import ProductQuery
  import opened ClientView

  /** One line of the shopping cart, copied from the product when it was first added. */
  datatype CartLine = CartLine(id: int, name: string, price: real, image: string, quantity: int)

  function LineFor(id: int): CartLine -> bool {
    (l: CartLine) => l.id == id
  }

  function LineNotFor(id: int): CartLine -> bool {
    (l: CartLine) => l.id != id
  }

  /** The cart line addToCart creates for a product not yet in the cart. */
  function LineOf(p: Product, quantity: int): (l: CartLine)
    ensures l.id == p.id && l.quantity == quantity
    ensures l.name == p.name && l.price == p.price && l.image == p.image
  {
    CartLine(p.id, p.name, p.price, p.image, quantity)
  }

  /** No two cart lines are for the same product. */
  predicate UniqueIds(cart: seq<CartLine>) {
    forall i, j :: 0 <= i < j < |cart| ==> cart[i].id != cart[j].id
  }

  /** The badge count: the quantities summed from the first line to the last. */
  function CartCount(cart: seq<CartLine>): int {
    if cart == [] then 0 else CartCount(cart[..|cart| - 1]) + cart[|cart| - 1].quantity
  }

  /** Appending a line adds its quantity to the count. */
  lemma CartCountAppend(cart: seq<CartLine>, l: CartLine)
    ensures CartCount(cart + [l]) == CartCount(cart) + l.quantity
  {
    assert (cart + [l])[..|cart|] == cart;
  }

  /** Replacing a line changes the count by the difference of the quantities. */
  lemma {:induction false} CartCountUpdate(cart: seq<CartLine>, j: nat, l: CartLine)
    requires j < |cart|
    ensures CartCount(cart[j := l]) == CartCount(cart) - cart[j].quantity + l.quantity
  {
    var n := |cart| - 1;
    if j == n {
      assert cart[j := l][..n] == cart[..n];
    } else {
      CartCountUpdate(cart[..n], j, l);
      assert cart[j := l][..n] == cart[..n][j := l];
    }
  }

  /** Dropping the lines of a product that has none leaves the cart as it is. */
  lemma NotInCart(cart: seq<CartLine>, id: int)
    requires FirstIndex(cart, LineFor(id)) < 0
    ensures Filter(cart, LineNotFor(id)) == cart
  {
    FilterKeepsAll(cart, LineNotFor(id));
  }

  /** Dropping the one line of product `id` takes its quantity off the count. */
  lemma {:induction false} CartCountRemove(cart: seq<CartLine>, id: int, j: nat)
    requires UniqueIds(cart) && j < |cart| && cart[j].id == id
    ensures CartCount(Filter(cart, LineNotFor(id))) == CartCount(cart) - cart[j].quantity
  {
    var n := |cart| - 1;
    var init := cart[..n];
    assert cart == init + [cart[n]];
    FilterConcat(init, [cart[n]], LineNotFor(id));
    FilterOne(cart[n], LineNotFor(id));
    if j == n {
      FilterKeepsAll(init, LineNotFor(id));
      assert Filter(cart, LineNotFor(id)) == init;
    } else {
      CartCountRemove(init, id, j);
      CartCountAppend(Filter(init, LineNotFor(id)), cart[n]);
    }
  }

  /** Removing lines keeps the product ids of the cart distinct. */
  lemma {:induction false} FilterKeepsUnique(cart: seq<CartLine>, keep: CartLine -> bool)
    requires UniqueIds(cart)
    ensures UniqueIds(Filter(cart, keep))
  {
    if cart != [] {
      var tail := cart[1..];
      TailUnique(cart);
      FilterKeepsUnique(tail, keep);
      if keep(cart[0]) {
        var rest := Filter(tail, keep);
        FilterMembers(tail, keep);
        HeadIdNotInTail(cart);
        ConsUnique(cart[0], rest);
      }
    }
  }

  /** The lines after the first of a cart with distinct ids have distinct ids. */
  lemma TailUnique(cart: seq<CartLine>)
    requires UniqueIds(cart) && cart != []
    ensures UniqueIds(cart[1..])
  {
    var tail := cart[1..];
    forall i, j | 0 <= i < j < |tail|
      ensures tail[i].id != tail[j].id
    {
      assert tail[i] == cart[i + 1] && tail[j] == cart[j + 1];
    }
  }

  /** No later line of a cart with distinct ids shares the first line's id. */
  lemma HeadIdNotInTail(cart: seq<CartLine>)
    requires UniqueIds(cart) && cart != []
    ensures forall y :: y in cart[1..] ==> y.id != cart[0].id
  {
    forall y | y in cart[1..]
      ensures y.id != cart[0].id
    {
      var i :| 0 <= i < |cart| - 1 && cart[1..][i] == y;
      assert cart[i + 1] == y;
    }
  }

  /** A line put in front of lines with other ids keeps the ids distinct. */
  lemma ConsUnique(x: CartLine, rest: seq<CartLine>)
    requires UniqueIds(rest)
    requires forall y :: y in rest ==> y.id != x.id
    ensures UniqueIds([x] + rest)
  {
    var r := [x] + rest;
    forall i, j | 0 <= i < j < |r|
      ensures r[i].id != r[j].id
    {
      assert r[j] == rest[j - 1];
      if i > 0 {
        assert r[i] == rest[i - 1];
      } else {
        assert rest[j - 1] in rest;
      }
    }
  }

  /** Changing a line without changing its product id keeps the ids distinct. */
  lemma UpdateKeepsUnique(cart: seq<CartLine>, j: nat, line: CartLine)
    requires j < |cart| && line.id == cart[j].id
    ensures UniqueIds(cart) ==> UniqueIds(cart[j := line])
  {
  }

  /** A line for a product the cart has no line for keeps the ids distinct. */
  lemma AppendKeepsUnique(cart: seq<CartLine>, line: CartLine)
    requires forall i :: 0 <= i < |cart| ==> !LineFor(line.id)(cart[i])
    ensures UniqueIds(cart) ==> UniqueIds(cart + [line])
  {
  }

  /** The search box text as searchProducts uses it: lower-cased, then trimmed. */
  function SearchTermOf(query: string): (term: string)
    ensures |term| <= |query|
    ensures Text.Lower(term) == term
    ensures term == [] || (!Text.IsJsSpace(term[0]) && !Text.IsJsSpace(term[|term| - 1]))
  {
    Text.TrimmedLowerIsLower(query, Text.IsJsSpace);
    Text.Trim(Text.Lower(query), Text.IsJsSpace)
  }

  function MatchesBy(term: string): Product -> bool {
    (p: Product) => ProductQuery.MatchesTerm(p, term)
  }

  /** The values of the filter sidebar when applyFilters reads it. */
  datatype FilterForm = FilterForm(category: string, minPrice: string, maxPrice: string, rating: string)

  /** What applyFilters makes of the sidebar: the category, the two price bounds and the minimum rating. */
  datatype Criteria = Criteria(category: string, minPrice: real, maxPrice: Option<real>, rating: string, minRating: Option<real>)

  /**
   * The price boxes read as `parseFloat(min) || 0` and `parseFloat(max) || Infinity`;
   * the rating is parsed only when it is not "all".
   */
  function CriteriaOf(form: FilterForm): Criteria {
    var minRating := if form.rating == "all" then None else ParseFloat(form.rating);
    Criteria(form.category, ParseFloatOrZero(form.minPrice), ParseFloatOrInfinity(form.maxPrice), form.rating, minRating)
  }

  /**
   * The "all" rating skips the rating step: a product is kept exactly when
   * its category and price pass, and no minimum rating is read.
   */
  lemma AllRatingsSkipStep(form: FilterForm, p: Product)
    requires form.rating == "all"
    ensures CriteriaOf(form).minRating.None?
    ensures Keeps(CriteriaOf(form), p) <==> CategoryOk(CriteriaOf(form), p) && PriceOk(CriteriaOf(form), p)
  {
  }

  /** Any other rating is parsed, and a product is kept only when its rating reaches the parsed value. */
  lemma OtherRatingFilters(form: FilterForm, p: Product)
    requires form.rating != "all"
    ensures CriteriaOf(form).minRating == ParseFloat(form.rating)
    ensures Keeps(CriteriaOf(form), p) ==> ParseFloat(form.rating).Some? && p.rating >= ParseFloat(form.rating).value
  {
  }

  /** The "all" radio button leaves the category unfiltered; another keeps exactly that category. */
  predicate CategoryOk(c: Criteria, p: Product) {
    c.category == "all" || p.category == c.category
  }

  predicate PriceOk(c: Criteria, p: Product) {
    InPriceRange(c.minPrice, c.maxPrice, p)
  }

  /** At least `min` and, unless the bound is open, at most `max`. */
  predicate InPriceRange(min: real, max: Option<real>, p: Product) {
    p.price >= min && (max.None? || p.price <= max.value)
  }

  /** "all" keeps every rating; otherwise the rating is at least the parsed one, and NaN keeps nothing. */
  predicate RatingOk(c: Criteria, p: Product) {
    c.rating == "all" || RatingReaches(c.minRating, p)
  }

  /** `product.rating >= minRating`, which is false for every product when minRating is NaN. */
  predicate RatingReaches(min: Option<real>, p: Product) {
    min.Some? && p.rating >= min.value
  }

  /** A product applyFilters keeps. */
  predicate Keeps(c: Criteria, p: Product) {
    CategoryOk(c, p) && PriceOk(c, p) && RatingOk(c, p)
  }

  /** What the first `n` of the three filter steps keep. */
  predicate UpTo(c: Criteria, n: nat, p: Product) {
    (n >= 1 ==> CategoryOk(c, p)) && (n >= 2 ==> PriceOk(c, p)) && (n >= 3 ==> RatingOk(c, p))
  }

  function UpToBy(c: Criteria, n: nat): Product -> bool {
    (p: Product) => UpTo(c, n, p)
  }

  function KeepsBy(c: Criteria): Product -> bool {
    (p: Product) => Keeps(c, p)
  }

  function PriceWithin(min: real, max: Option<real>): Product -> bool {
    (p: Product) => InPriceRange(min, max, p)
  }

  function RatingAtLeast(r: Option<real>): Product -> bool {
    (p: Product) => RatingReaches(r, p)
  }

  /** The sidebar as clearFilters leaves it: "all" categories and ratings, empty price boxes. */
  const ClearedForm := FilterForm("all", "", "", "all")

  /** What applyFilters reads from the cleared sidebar: every category, from 0 with no upper bound, every rating. */
  const ClearedCriteria := Criteria("all", 0.0, None, "all", None)

  /** The empty price boxes read as 0 and no bound, and the "all" rating is not parsed. */
  lemma ClearedFormReads()
    ensures CriteriaOf(ClearedForm) == ClearedCriteria
  {
    BlankBoxes("");
  }

  /**
   * Applying the cleared sidebar shows every product, as clearFilters does,
   * provided no price is negative (an empty minimum price reads as 0).
   */
  lemma ClearedKeepsAll(products: seq<Product>)
    requires forall i :: 0 <= i < |products| ==> products[i].price >= 0.0
    ensures Filter(products, KeepsBy(ClearedCriteria)) == products
  {
    forall i | 0 <= i < |products|
      ensures KeepsBy(ClearedCriteria)(products[i])
    {
      assert PriceOk(ClearedCriteria, products[i]);
    }
    FilterKeepsAll(products, KeepsBy(ClearedCriteria));
  }

  /** A negative price is hidden by the cleared sidebar although clearFilters shows it. */
  lemma ClearedHidesNegativePrice(p: Product)
    requires p.price < 0.0
    ensures !Keeps(ClearedCriteria, p)
  {
  }

  /** The sort-select values sortProducts acts on; any other value leaves the order alone. */
  function ClientSortKey(sortBy: string): (k: Option<SortKey>)
    ensures k == Some(ByName) <==> sortBy == "name"
    ensures k == Some(PriceLowToHigh) <==> sortBy == "price-low"
    ensures k == Some(PriceHighToLow) <==> sortBy == "price-high"
    ensures k == Some(RatingHighToLow) <==> sortBy == "rating"
    ensures k != Some(ReviewsHighToLow)
  {
    if sortBy == "name" then Some(ByName)
    else if sortBy == "price-low" then Some(PriceLowToHigh)
    else if sortBy == "price-high" then Some(PriceHighToLow)
    else if sortBy == "rating" then Some(RatingHighToLow)
    else None
  }

  /**
   * What the sort select asks of the shown products: "name" ascending by
   * localeCompare (modelled byte-wise), "price-low" non-decreasing price,
   * "price-high" non-increasing price, "rating" non-increasing rating; any
   * other value asks for no sort.
   */
  lemma SortSelectOrders(sortBy: string, s: seq<Product>)
    ensures sortBy == "name" ==> ClientSortKey(sortBy) == Some(ByName)
    ensures sortBy == "name" ==> (SortedBy(ByName, s) <==> forall i, j :: 0 <= i < j < |s| ==> Text.LexLe(s[i].name, s[j].name))
    ensures sortBy == "price-low" ==> ClientSortKey(sortBy) == Some(PriceLowToHigh)
    ensures sortBy == "price-low" ==> (SortedBy(PriceLowToHigh, s) <==> forall i, j :: 0 <= i < j < |s| ==> s[i].price <= s[j].price)
    ensures sortBy == "price-high" ==> ClientSortKey(sortBy) == Some(PriceHighToLow)
    ensures sortBy == "price-high" ==> (SortedBy(PriceHighToLow, s) <==> forall i, j :: 0 <= i < j < |s| ==> s[i].price >= s[j].price)
    ensures sortBy == "rating" ==> ClientSortKey(sortBy) == Some(RatingHighToLow)
    ensures sortBy == "rating" ==> (SortedBy(RatingHighToLow, s) <==> forall i, j :: 0 <= i < j < |s| ==> s[i].rating >= s[j].rating)
    ensures sortBy != "name" && sortBy != "price-low" && sortBy != "price-high" && sortBy != "rating" ==> ClientSortKey(sortBy).None?
  {
    SortedByMeans(ByName, s);
    SortedByMeans(PriceLowToHigh, s);
    SortedByMeans(PriceHighToLow, s);
    SortedByMeans(RatingHighToLow, s);
  }

  /** A search with an empty term shows every product, as if every product matched. */
  lemma EmptySearchKeepsAll(products: seq<Product>)
    ensures Filter(products, MatchesBy("")) == products
  {
    forall p: Product ensures ProductQuery.MatchesTerm(p, "") {
      assert Text.OccursAt(Text.Lower(p.name), "", 0);
    }
    FilterKeepsAll(products, MatchesBy(""));
  }

  /** Only surrounding whitespace and letter case of the query matter. */
  lemma SearchTermNormal(query: string)
    ensures SearchTermOf(SearchTermOf(query)) == SearchTermOf(query)
  {
    Text.TrimmedLowerIsLower(query, Text.IsJsSpace);
    Text.TrimIdempotent(Text.Lower(query), Text.IsJsSpace);
  }

  /**
   * One step of applyFilters: when the step is `active`, keep what `stage`
   * accepts of what the earlier steps kept. The result is what all the
   * steps so far (`upTo`) keep of `products`.
   */
  method Narrow(products: seq<Product>, filtered: seq<Product>, prev: Product -> bool, active: bool, stage: Product -> bool, upTo: Product -> bool)
    returns (narrowed: seq<Product>)
    requires filtered == Filter(products, prev)
    requires forall p :: upTo(p) == (prev(p) && (active ==> stage(p)))
    ensures narrowed == (if active then Filter(filtered, stage) else filtered)
    ensures narrowed == Filter(products, upTo)
  {
    narrowed := filtered;
    if active {
      narrowed := Filter(filtered, stage);
    }
    FilterStage(products, filtered, prev, stage, upTo, active);
  }

  /** The filtering part of applyFilters: category, then price range, then minimum rating, starting from all products. */
  method FilterProducts(products: seq<Product>, c: Criteria) returns (filtered: seq<Product>)
    ensures filtered == Filter(products, KeepsBy(c))
  {
    filtered := products;
    FilterKeepsAll(products, UpToBy(c, 0));
    CategoryStep(c);
    filtered := Narrow(products, filtered, UpToBy(c, 0), c.category != "all", InCategory(c.category), UpToBy(c, 1));
    PriceStep(c);
    filtered := Narrow(products, filtered, UpToBy(c, 1), true, PriceWithin(c.minPrice, c.maxPrice), UpToBy(c, 2));
    RatingStep(c);
    filtered := Narrow(products, filtered, UpToBy(c, 2), c.rating != "all", RatingAtLeast(c.minRating), UpToBy(c, 3));
    LastStep(products, c);
  }

  lemma CategoryStep(c: Criteria)
    ensures forall p :: UpToBy(c, 1)(p) == (UpToBy(c, 0)(p) && (c.category != "all" ==> InCategory(c.category)(p)))
  {
  }

  lemma PriceStep(c: Criteria)
    ensures forall p :: UpToBy(c, 2)(p) == (UpToBy(c, 1)(p) && PriceWithin(c.minPrice, c.maxPrice)(p))
  {
  }

  lemma RatingStep(c: Criteria)
    ensures forall p :: UpToBy(c, 3)(p) == (UpToBy(c, 2)(p) && (c.rating != "all" ==> RatingAtLeast(c.minRating)(p)))
  {
  }

  lemma LastStep(products: seq<Product>, c: Criteria)
    ensures Filter(products, UpToBy(c, 3)) == Filter(products, KeepsBy(c))
  {
    FilterSame(products, UpToBy(c, 3), KeepsBy(c));
  }

  class EcommerceApp {
    /** The catalog loaded at start-up; no operation replaces it. */
    const products: seq<Product>
    var cart: seq<CartLine>
    var filteredProducts: seq<Product>
    var currentPage: int

    /** The grid shows products of the catalog only, and the current page exists (page 1 always does). */
    predicate Valid()
      reads this
    {
      (forall p :: p in filteredProducts ==> p in products)
      && 1 <= currentPage
      && (currentPage == 1 || currentPage <= TotalPages(|filteredProducts|))
    }

    /** Starts on page 1 showing every product, with the cart restored from storage. */
    constructor(products: seq<Product>, savedCart: seq<CartLine>)
      ensures this.products == products && cart == savedCart
      ensures filteredProducts == products && currentPage == 1
      ensures Valid()
    {
      this.products := products;
      cart := savedCart;
      filteredProducts := products;
      currentPage := 1;
    }

    /** The products on the current page, as renderProducts slices them. */
    function VisibleProducts(): (shown: seq<Product>)
      reads this
      requires Valid()
      ensures |shown| <= PerPage
      ensures forall p :: p in shown ==> p in products
      ensures filteredProducts != [] ==> shown != []
      ensures forall i :: 0 <= i < |filteredProducts| && i / PerPage + 1 == currentPage ==>
        i % PerPage < |shown| && shown[i % PerPage] == filteredProducts[i]
    {
      PageSliceItems(filteredProducts, currentPage);
      var shown := PageSlice(filteredProducts, currentPage);
      assert forall p :: p in shown ==> p in filteredProducts by {
        var start := (currentPage - 1) * PerPage;
        assert 0 <= start;
        if start <= |filteredProducts| {
          assert shown == filteredProducts[start..if start + PerPage <= |filteredProducts| then start + PerPage else |filteredProducts|];
        }
      }
      shown
    }

    /**
     * addToCart: nothing happens for an unknown product; a product already in
     * the cart has its quantity raised; otherwise a new line is appended.
     */
    method AddToCart(productId: int, quantity: int := 1)
      modifies this`cart
      ensures var k := FirstIndex(products, HasId(productId));
        var j := FirstIndex(old(cart), LineFor(productId));
        cart == if k < 0 then old(cart)
          else if j >= 0 then old(cart)[j := old(cart)[j].(quantity := old(cart)[j].quantity + quantity)]
          else old(cart) + [LineOf(products[k], quantity)]
      ensures FirstIndex(products, HasId(productId)) >= 0 ==> CartCount(cart) == CartCount(old(cart)) + quantity
      ensures UniqueIds(old(cart)) ==> UniqueIds(cart)
      ensures FirstIndex(products, HasId(productId)) >= 0 ==> exists i :: 0 <= i < |cart| && cart[i].id == productId
    {
      var k := FirstIndex(products, HasId(productId));
      if k < 0 {
        return;
      }
      var j := FirstIndex(cart, LineFor(productId));
      if j >= 0 {
        var line := cart[j].(quantity := cart[j].quantity + quantity);
        CartCountUpdate(cart, j, line);
        UpdateKeepsUnique(cart, j, line);
        cart := cart[j := line];
        assert cart[j].id == productId;
      } else {
        var line := LineOf(products[k], quantity);
        CartCountAppend(cart, line);
        AppendKeepsUnique(cart, line);
        cart := cart + [line];
        assert cart[|cart| - 1].id == productId;
      }
    }

    /** removeFromCart: every line of the product goes, the others stay in order. */
    method RemoveFromCart(productId: int)
      modifies this`cart
      ensures cart == Filter(old(cart), LineNotFor(productId))
      ensures forall i :: 0 <= i < |cart| ==> cart[i].id != productId
      ensures FirstIndex(old(cart), LineFor(productId)) < 0 ==> cart == old(cart)
      ensures UniqueIds(old(cart)) ==> UniqueIds(cart)
      ensures UniqueIds(old(cart)) && FirstIndex(old(cart), LineFor(productId)) >= 0 ==>
        CartCount(cart) == CartCount(old(cart)) - old(cart)[FirstIndex(old(cart), LineFor(productId))].quantity
    {
      var before := cart;
      cart := Filter(cart, LineNotFor(productId));
      var j := FirstIndex(before, LineFor(productId));
      if j < 0 {
        NotInCart(before, productId);
      } else if UniqueIds(before) {
        CartCountRemove(before, productId, j);
      }
      if UniqueIds(before) {
        FilterKeepsUnique(before, LineNotFor(productId));
      }
    }

    /**
     * updateCartQuantity: nothing for a product not in the cart; a quantity
     * of zero or less removes it; otherwise its line gets the new quantity.
     */
    method UpdateCartQuantity(productId: int, quantity: int)
      modifies this`cart
      ensures var j := FirstIndex(old(cart), LineFor(productId));
        cart == if j < 0 then old(cart)
          else if quantity <= 0 then Filter(old(cart), LineNotFor(productId))
          else old(cart)[j := old(cart)[j].(quantity := quantity)]
      ensures UniqueIds(old(cart)) ==> UniqueIds(cart)
      ensures FirstIndex(old(cart), LineFor(productId)) >= 0 && quantity > 0 ==>
        CartCount(cart) == CartCount(old(cart)) - old(cart)[FirstIndex(old(cart), LineFor(productId))].quantity + quantity
    {
      var j := FirstIndex(cart, LineFor(productId));
      if j >= 0 {
        if quantity <= 0 {
          RemoveFromCart(productId);
        } else {
          var line := cart[j].(quantity := quantity);
          CartCountUpdate(cart, j, line);
          cart := cart[j := line];
        }
      }
    }

    /** searchProducts: an empty (trimmed, lower-cased) query shows all products, another the matching ones; back to page 1. */
    method SearchProducts(query: string)
      requires Valid()
      modifies this`filteredProducts, this`currentPage
      ensures var term := SearchTermOf(query);
        filteredProducts == if term == [] then products else Filter(products, MatchesBy(term))
      ensures filteredProducts == Filter(products, MatchesBy(SearchTermOf(query)))
      ensures currentPage == 1 && Valid()
    {
      var term := SearchTermOf(query);
      if term == [] {
        EmptySearchKeepsAll(products);
        filteredProducts := products;
      } else {
        filteredProducts := Filter(products, MatchesBy(term));
        FilterMembers(products, MatchesBy(term));
      }
      currentPage := 1;
    }

    /** applyFilters: the products the sidebar's filters keep, in catalog order, shown from page 1. */
    method ApplyFilters(form: FilterForm)
      requires Valid()
      modifies this`filteredProducts, this`currentPage
      ensures filteredProducts == Filter(products, KeepsBy(CriteriaOf(form)))
      ensures forall p :: p in filteredProducts <==> p in products && Keeps(CriteriaOf(form), p)
      ensures currentPage == 1 && Valid()
    {
      var c := CriteriaOf(form);
      ShowMatching(c);
    }

    /** Shows, from page 1, the products that meet the criteria read from the sidebar. */
    method ShowMatching(c: Criteria)
      modifies this`filteredProducts, this`currentPage
      ensures filteredProducts == Filter(products, KeepsBy(c))
      ensures forall p :: p in filteredProducts <==> p in products && Keeps(c, p)
      ensures currentPage == 1 && Valid()
    {
      var filtered := FilterProducts(products, c);
      FilterMembers(products, KeepsBy(c));
      filteredProducts := filtered;
      currentPage := 1;
    }

    /** clearFilters: every product again, on page 1. */
    method ClearFilters()
      modifies this`filteredProducts, this`currentPage
      ensures filteredProducts == products && currentPage == 1
      ensures Valid()
    {
      filteredProducts := products;
      currentPage := 1;
    }

    /**
     * sortProducts: a known sort key reorders the shown products stably by
     * that key; any other value leaves them alone. The page is kept.
     */
    method SortProducts(sortBy: string)
      requires Valid()
      modifies this`filteredProducts
      ensures ClientSortKey(sortBy).None? ==> filteredProducts == old(filteredProducts)
      ensures ClientSortKey(sortBy).Some? ==>
        var k := ClientSortKey(sortBy).value;
        SortedBy(k, filteredProducts)
        && multiset(filteredProducts) == multiset(old(filteredProducts))
        && forall y :: TiesWith(k, filteredProducts, y) == TiesWith(k, old(filteredProducts), y)
      ensures sortBy == "price-low" ==> forall i, j :: 0 <= i < j < |filteredProducts| ==> filteredProducts[i].price <= filteredProducts[j].price
      ensures sortBy == "price-high" ==> forall i, j :: 0 <= i < j < |filteredProducts| ==> filteredProducts[i].price >= filteredProducts[j].price
      ensures sortBy == "rating" ==> forall i, j :: 0 <= i < j < |filteredProducts| ==> filteredProducts[i].rating >= filteredProducts[j].rating
      ensures Valid()
    {
      var key := ClientSortKey(sortBy);
      if key.Some? {
        var before := filteredProducts;
        filteredProducts := SortBy(key.value, filteredProducts);
        forall y ensures TiesWith(key.value, filteredProducts, y) == TiesWith(key.value, before, y) {
          SortByStable(key.value, before, y);
        }
        forall p | p in filteredProducts ensures p in products {
          assert p in multiset(before);
        }
      }
      SortSelectOrders(sortBy, filteredProducts);
    }

    /** goToPage: a page from 1 to the page count becomes current; any other request is ignored. */
    method GoToPage(page: int)
      requires Valid()
      modifies this`currentPage
      ensures 1 <= page <= TotalPages(|filteredProducts|) ==> currentPage == page
      ensures !(1 <= page <= TotalPages(|filteredProducts|)) ==> currentPage == old(currentPage)
      ensures Valid()
    {
      var totalPages := TotalPages(|filteredProducts|);
      if page >= 1 && page <= totalPages {
        currentPage := page;
      }
    }

    /** renderPagination for the current state. */
    method RenderPagination() returns (items: seq<PageItem>)
      ensures TotalPages(|filteredProducts|) <= 1 ==> items == []
      ensures TotalPages(|filteredProducts|) > 1 ==>
        var total := TotalPages(|filteredProducts|);
        items == [Previous(currentPage - 1, currentPage == 1)] + PageEntries(currentPage, total, total) + [Next(currentPage + 1, currentPage == total)]
    {
      items := Pagination(currentPage, |filteredProducts|);
    }
  }
}
