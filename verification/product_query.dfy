/**
 * The server's product query (getAllProducts): five optional filter stages
 * applied one after the other in a fixed order, then an optional stable sort.
 * Query parameters arrive as text; a stage runs only when its parameter is
 * not empty() in PHP's sense, and numeric bounds go through floatval().
 */
module ProductQuery {
  import opened Wrappers
  import opened Seqs
  import Text
  import Php
  import opened Catalog
  import opened Sorting

  /** The recognised query parameters, each possibly absent. */
  datatype Filters = Filters(
    category: Option<string>,
    minPrice: Option<string>,
    maxPrice: Option<string>,
    minRating: Option<string>,
    search: Option<string>,
    sort: Option<string>)

  /** The filter stages, in the order the server applies them. */
  datatype Stage = CategoryStage | MinPriceStage | MaxPriceStage | MinRatingStage | SearchStage

  const Pipeline: seq<Stage> := [CategoryStage, MinPriceStage, MaxPriceStage, MinRatingStage, SearchStage]

  /** Whether a stage runs: its parameter is not empty(), and a category is not "all". */
  predicate StageActive(f: Filters, st: Stage) {
    match st
    case CategoryStage => !Php.EmptyText(f.category) && f.category.value != "all"
    case MinPriceStage => !Php.EmptyText(f.minPrice)
    case MaxPriceStage => !Php.EmptyText(f.maxPrice)
    case MinRatingStage => !Php.EmptyText(f.minRating)
    case SearchStage => !Php.EmptyText(f.search)
  }

  /** The search term: the parameter lower-cased (it is not trimmed). */
  function SearchTerm(f: Filters): string {
    Text.Lower(f.search.GetOr(""))
  }

  /** The term occurs in the lower-cased name, description or category. */
  predicate MatchesTerm(p: Product, term: string) {
    Text.Contains(Text.Lower(p.name), term)
    || Text.Contains(Text.Lower(p.description), term)
    || Text.Contains(Text.Lower(p.category), term)
  }

  /** What an active stage keeps. */
  predicate StageKeeps(f: Filters, st: Stage, p: Product) {
    match st
    case CategoryStage => p.category == f.category.GetOr("")
    case MinPriceStage => p.price >= Php.FloatVal(f.minPrice.GetOr(""))
    case MaxPriceStage => p.price <= Php.FloatVal(f.maxPrice.GetOr(""))
    case MinRatingStage => p.rating >= Php.FloatVal(f.minRating.GetOr(""))
    case SearchStage => MatchesTerm(p, SearchTerm(f))
  }

  /** The callback given to array_filter by stage `st`. */
  function Callback(f: Filters, st: Stage): Product -> bool {
    p => StageKeeps(f, st, p)
  }

  /** A product survives a stage when the stage is skipped or keeps it. */
  predicate Survives(f: Filters, st: Stage, p: Product) {
    StageActive(f, st) ==> StageKeeps(f, st, p)
  }

  /** A product is in the result exactly when it survives every stage. */
  predicate Selected(f: Filters, p: Product) {
    Survives(f, CategoryStage, p)
    && Survives(f, MinPriceStage, p)
    && Survives(f, MaxPriceStage, p)
    && Survives(f, MinRatingStage, p)
    && Survives(f, SearchStage, p)
  }

  function SelectedBy(f: Filters): Product -> bool {
    p => Selected(f, p)
  }

  /** The products the filters select, in catalog order. */
  function Matching(products: seq<Product>, f: Filters): seq<Product> {
    Filter(products, SelectedBy(f))
  }

  /** Survives the first `n` stages of the pipeline. */
  predicate SurvivesFirst(f: Filters, n: nat, p: Product)
    requires n <= |Pipeline|
  {
    n == 0 || (SurvivesFirst(f, n - 1, p) && Survives(f, Pipeline[n - 1], p))
  }

  function SurvivesFirstBy(f: Filters, n: nat): Product -> bool
    requires n <= |Pipeline|
  {
    p => SurvivesFirst(f, n, p)
  }

  /** The sort order a `sort` parameter asks for; none when it is empty or unrecognised. */
  function SortKeyOf(f: Filters): (k: Option<SortKey>)
    ensures k.Some? ==> !Php.EmptyText(f.sort)
    ensures k == Some(ByName) <==> f.sort == Some("name")
    ensures k == Some(PriceLowToHigh) <==> f.sort == Some("price-low")
    ensures k == Some(PriceHighToLow) <==> f.sort == Some("price-high")
    ensures k == Some(RatingHighToLow) <==> f.sort == Some("rating")
    ensures k != Some(ReviewsHighToLow)
  {
    if Php.EmptyText(f.sort) then None
    else if f.sort.value == "name" then Some(ByName)
    else if f.sort.value == "price-low" then Some(PriceLowToHigh)
    else if f.sort.value == "price-high" then Some(PriceHighToLow)
    else if f.sort.value == "rating" then Some(RatingHighToLow)
    else None
  }

  /**
   * What the sort parameter asks of a result: "name" ascending by strcmp,
   * "price-low" non-decreasing price, "price-high" non-increasing price,
   * "rating" non-increasing rating; any other value, or none, asks for no sort.
   */
  /** The sort parameter is absent or names none of the four orderings. */
  predicate NoSortParam(f: Filters) {
    f.sort != Some("name") && f.sort != Some("price-low") && f.sort != Some("price-high") && f.sort != Some("rating")
  }

  lemma SortParamOrders(f: Filters, s: seq<Product>)
    ensures f.sort == Some("name") ==> SortKeyOf(f) == Some(ByName)
    ensures f.sort == Some("name") ==> (SortedBy(ByName, s) <==> forall i, j :: 0 <= i < j < |s| ==> Text.LexLe(s[i].name, s[j].name))
    ensures f.sort == Some("price-low") ==> SortKeyOf(f) == Some(PriceLowToHigh)
    ensures f.sort == Some("price-low") ==> (SortedBy(PriceLowToHigh, s) <==> forall i, j :: 0 <= i < j < |s| ==> s[i].price <= s[j].price)
    ensures f.sort == Some("price-high") ==> SortKeyOf(f) == Some(PriceHighToLow)
    ensures f.sort == Some("price-high") ==> (SortedBy(PriceHighToLow, s) <==> forall i, j :: 0 <= i < j < |s| ==> s[i].price >= s[j].price)
    ensures f.sort == Some("rating") ==> SortKeyOf(f) == Some(RatingHighToLow)
    ensures f.sort == Some("rating") ==> (SortedBy(RatingHighToLow, s) <==> forall i, j :: 0 <= i < j < |s| ==> s[i].rating >= s[j].rating)
    ensures NoSortParam(f) ==> SortKeyOf(f).None?
  {
    SortedByMeans(ByName, s);
    SortedByMeans(PriceLowToHigh, s);
    SortedByMeans(PriceHighToLow, s);
    SortedByMeans(RatingHighToLow, s);
  }

  /** One stage of the pipeline: running or skipping stage `n` extends the survivors of the first `n` stages by one. */
  lemma StageStep(products: seq<Product>, f: Filters, n: nat, before: seq<Product>, after: seq<Product>)
    requires n < |Pipeline|
    requires before == Filter(products, SurvivesFirstBy(f, n))
    requires after == if StageActive(f, Pipeline[n]) then Filter(before, Callback(f, Pipeline[n])) else before
    ensures after == Filter(products, SurvivesFirstBy(f, n + 1))
  {
    var st := Pipeline[n];
    FilterMaybeThen(products, SurvivesFirstBy(f, n), Callback(f, st), StageActive(f, st), SurvivesFirstBy(f, n + 1));
  }

  /** Surviving all five stages is being selected. */
  lemma AllStages(products: seq<Product>, f: Filters, n: nat)
    requires n == |Pipeline|
    ensures Filter(products, SurvivesFirstBy(f, n)) == Matching(products, f)
  {
    forall p ensures SurvivesFirst(f, n, p) == Selected(f, p) {
      assert SurvivesFirst(f, 1, p) == Survives(f, CategoryStage, p);
      assert SurvivesFirst(f, 3, p) == (SurvivesFirst(f, 1, p) && Survives(f, MinPriceStage, p) && Survives(f, MaxPriceStage, p));
    }
    FilterSame(products, SurvivesFirstBy(f, n), SelectedBy(f));
  }

  /** The selected products are exactly the catalog's products that pass every active stage. */
  lemma MatchingMembers(products: seq<Product>, f: Filters)
    ensures forall p :: p in Matching(products, f) <==> p in products && Selected(f, p)
  {
    FilterMembers(products, SelectedBy(f));
  }

  /**
   * One `if (!empty(...)) array_filter(...)` step of getAllProducts: stage
   * `st`, the `n`-th of the pipeline, applied to what the stages before it kept.
   */
  method RunStage(products: seq<Product>, f: Filters, st: Stage, ghost n: nat, ps: seq<Product>) returns (kept: seq<Product>)
    requires n < |Pipeline| && Pipeline[n] == st
    requires ps == Filter(products, SurvivesFirstBy(f, n))
    ensures kept == Filter(products, SurvivesFirstBy(f, n + 1))
  {
    kept := ps;
    if StageActive(f, st) {
      kept := Filter(ps, Callback(f, st));
    }
    StageStep(products, f, n, ps, kept);
  }

  /** The usort step: a stable sort by the key asked for, or nothing when there is none. */
  method SortStage(ps: seq<Product>, key: Option<SortKey>) returns (sorted: seq<Product>)
    ensures key.None? ==> sorted == ps
    ensures key.Some? ==>
      SortedBy(key.value, sorted)
      && multiset(sorted) == multiset(ps)
      && forall y :: TiesWith(key.value, sorted, y) == TiesWith(key.value, ps, y)
    ensures forall p :: p in sorted <==> p in ps
  {
    sorted := ps;
    if key.Some? {
      sorted := SortBy(key.value, ps);
      forall y ensures TiesWith(key.value, sorted, y) == TiesWith(key.value, ps, y) {
        SortByStable(key.value, ps, y);
      }
      forall p ensures p in sorted <==> p in ps {
        assert p in sorted <==> p in multiset(sorted);
        assert p in ps <==> p in multiset(ps);
      }
    }
  }

  /**
   * getAllProducts: the selected products, sorted stably when a recognised
   * sort is asked for, with their count.
   */
  method GetAllProducts(products: seq<Product>, f: Filters) returns (data: seq<Product>, count: int)
    ensures count == |data|
    ensures SortKeyOf(f).None? ==> data == Matching(products, f)
    ensures SortKeyOf(f).Some? ==>
      var k := SortKeyOf(f).value;
      SortedBy(k, data)
      && multiset(data) == multiset(Matching(products, f))
      && forall y :: TiesWith(k, data, y) == TiesWith(k, Matching(products, f), y)
    ensures forall p :: p in data <==> p in products && Selected(f, p)
    ensures f.sort == Some("name") ==> forall i, j :: 0 <= i < j < |data| ==> Text.LexLe(data[i].name, data[j].name)
    ensures f.sort == Some("price-low") ==> forall i, j :: 0 <= i < j < |data| ==> data[i].price <= data[j].price
    ensures f.sort == Some("price-high") ==> forall i, j :: 0 <= i < j < |data| ==> data[i].price >= data[j].price
    ensures f.sort == Some("rating") ==> forall i, j :: 0 <= i < j < |data| ==> data[i].rating >= data[j].rating
    ensures NoSortParam(f) ==> data == Matching(products, f)
  {
    var ps := ApplyStages(products, f);
    MatchingMembers(products, f);
    ps := SortStage(ps, SortKeyOf(f));
    data := ps;
    count := |ps|;
    SortParamOrders(f, data);
  }

  /** The five filter steps of getAllProducts, in order, starting from every product. */
  method ApplyStages(products: seq<Product>, f: Filters) returns (ps: seq<Product>)
    ensures ps == Matching(products, f)
  {
    ps := products;
    FilterKeepsAll(products, SurvivesFirstBy(f, 0));
    ps := RunStage(products, f, CategoryStage, 0, ps);
    ps := RunStage(products, f, MinPriceStage, 1, ps);
    ps := RunStage(products, f, MaxPriceStage, 2, ps);
    ps := RunStage(products, f, MinRatingStage, 3, ps);
    ps := RunStage(products, f, SearchStage, 4, ps);
    AllStages(products, f, 5);
  }

  /** No parameters: every product, in catalog order. */
  lemma NoFiltersKeepAll(products: seq<Product>)
    ensures Matching(products, Filters(None, None, None, None, None, None)) == products
  {
    FilterKeepsAll(products, SelectedBy(Filters(None, None, None, None, None, None)));
  }

  /** The filters with the parameter of stage `st` replaced by `v`. */
  function WithParam(f: Filters, st: Stage, v: Option<string>): Filters {
    match st
    case CategoryStage => f.(category := v)
    case MinPriceStage => f.(minPrice := v)
    case MaxPriceStage => f.(maxPrice := v)
    case MinRatingStage => f.(minRating := v)
    case SearchStage => f.(search := v)
  }

  /** A parameter given as "0" (or "") is empty() and skips its stage exactly as if it were absent. */
  lemma ZeroSkipsStage(products: seq<Product>, f: Filters, st: Stage, zero: string)
    requires zero == "0" || zero == ""
    ensures Matching(products, WithParam(f, st, Some(zero))) == Matching(products, WithParam(f, st, None))
  {
    var g := WithParam(f, st, Some(zero));
    var h := WithParam(f, st, None);
    forall i | 0 <= i < |products|
      ensures SelectedBy(g)(products[i]) == SelectedBy(h)(products[i])
    {
      ZeroSkipsFor(f, st, zero, products[i]);
    }
    FilterSame(products, SelectedBy(g), SelectedBy(h));
  }

  /** With its parameter "0", "" or absent, stage `st` is skipped and the other stages see the same parameters. */
  lemma ZeroSkipsFor(f: Filters, st: Stage, zero: string, p: Product)
    requires zero == "0" || zero == ""
    ensures Selected(WithParam(f, st, Some(zero)), p) == Selected(WithParam(f, st, None), p)
  {
    var g := WithParam(f, st, Some(zero));
    var h := WithParam(f, st, None);
    assert !StageActive(g, st) && !StageActive(h, st);
    assert g.(category := None, minPrice := None, maxPrice := None, minRating := None, search := None)
      == h.(category := None, minPrice := None, maxPrice := None, minRating := None, search := None);
  }

  /**
   * Removing a parameter never shrinks the result: what the filters select
   * is what they select among the products selected without that parameter,
   * in the same order.
   */
  lemma DroppingParamWidens(products: seq<Product>, f: Filters, st: Stage)
    ensures Filter(Matching(products, WithParam(f, st, None)), SelectedBy(f)) == Matching(products, f)
    ensures |Matching(products, f)| <= |Matching(products, WithParam(f, st, None))|
  {
    var h := WithParam(f, st, None);
    forall p ensures SelectedBy(f)(p) ==> SelectedBy(h)(p) {
      DroppingParamFor(f, st, p);
    }
    FilterNarrower(products, SelectedBy(f), SelectedBy(h));
  }

  /** The same for one product: without its parameter stage `st` is skipped, and the other stages are unchanged. */
  lemma DroppingParamFor(f: Filters, st: Stage, p: Product)
    ensures Selected(f, p) ==> Selected(WithParam(f, st, None), p)
  {
    var h := WithParam(f, st, None);
    assert !StageActive(h, st);
    assert f.(category := None, minPrice := None, maxPrice := None, minRating := None, search := None)
      == h.(category := None, minPrice := None, maxPrice := None, minRating := None, search := None);
  }

  /** Text that floatval() reads as 0: it starts with something other than a digit, sign, '.' or whitespace. */
  predicate NonNumericText(s: string) {
    s != [] && !(Text.IsDigit(s[0]) || s[0] == '.' || s[0] == '-' || s[0] == '+' || Text.IsPhpSpace(s[0]))
  }

  /**
   * A non-numeric maxPrice such as "abc" is not ignored: floatval() makes it
   * 0, so only products priced at most 0 survive.
   */
  lemma GarbageMaxPrice(products: seq<Product>, f: Filters, text: string)
    requires NonNumericText(text) && f.maxPrice == Some(text)
    ensures forall p :: p in Matching(products, f) ==> p.price <= 0.0
  {
    Php.FloatValOfText(text);
  }

  /**
   * A non-numeric minPrice becomes the bound 0, which changes nothing as
   * long as no price is negative.
   */
  lemma GarbageMinPrice(products: seq<Product>, f: Filters, text: string)
    requires NonNumericText(text) && f.minPrice == Some(text)
    requires forall i :: 0 <= i < |products| ==> products[i].price >= 0.0
    ensures Matching(products, f) == Matching(products, f.(minPrice := None))
  {
    Php.FloatValOfText(text);
    FilterSame(products, SelectedBy(f), SelectedBy(f.(minPrice := None)));
  }

  /** Search ignores case: a term and its lower-cased form select the same products. */
  lemma SearchIgnoresCase(products: seq<Product>, f: Filters, term: string)
    ensures Matching(products, f.(search := Some(Text.Lower(term)))) == Matching(products, f.(search := Some(term)))
  {
    LoweredSearch(term);
    SameSearch(products, f, Some(Text.Lower(term)), Some(term));
  }

  /** Lower-casing a search term changes neither the term used nor whether it is empty(). */
  lemma LoweredSearch(term: string)
    ensures Text.Lower(Text.Lower(term)) == Text.Lower(term)
    ensures Php.EmptyText(Some(Text.Lower(term))) == Php.EmptyText(Some(term))
  {
    Text.LowerIdempotent(term);
    if |term| == 1 {
      assert Text.Lower(term) == [Text.LowerChar(term[0])];
    }
  }

  /** Two search parameters with the same lower-cased term that are both empty() or both not select the same products. */
  lemma SameSearch(products: seq<Product>, f: Filters, a: Option<string>, b: Option<string>)
    requires Php.EmptyText(a) == Php.EmptyText(b)
    requires Text.Lower(a.GetOr("")) == Text.Lower(b.GetOr(""))
    ensures Matching(products, f.(search := a)) == Matching(products, f.(search := b))
  {
    var g := f.(search := a);
    var h := f.(search := b);
    forall i | 0 <= i < |products|
      ensures SelectedBy(g)(products[i]) == SelectedBy(h)(products[i])
    {
      SameSearchFor(f, a, b, products[i]);
    }
    FilterSame(products, SelectedBy(g), SelectedBy(h));
  }

  /** The same for one product: only the search stage differs, and it runs and matches alike. */
  lemma SameSearchFor(f: Filters, a: Option<string>, b: Option<string>, p: Product)
    requires Php.EmptyText(a) == Php.EmptyText(b)
    requires Text.Lower(a.GetOr("")) == Text.Lower(b.GetOr(""))
    ensures Selected(f.(search := a), p) == Selected(f.(search := b), p)
  {
    var g := f.(search := a);
    var h := f.(search := b);
    assert Survives(g, SearchStage, p) == Survives(h, SearchStage, p) by {
      assert SearchTerm(g) == SearchTerm(h);
    }
    assert g.(search := None) == h.(search := None);
  }

  function Sample(name: string, price: real, rating: real): Product {
    Product(0, name, "", price, None, "", rating, 0, "", true, 0, false, [], "", "")
  }

  /** Two products priced 10 and 5 with equal ratings: price-low swaps them, rating keeps their order. */
  lemma SortExample()
    ensures SortBy(PriceLowToHigh, [Sample("A", 10.0, 4.0), Sample("B", 5.0, 4.0)])
      == [Sample("B", 5.0, 4.0), Sample("A", 10.0, 4.0)]
    ensures SortBy(RatingHighToLow, [Sample("A", 10.0, 4.0), Sample("B", 5.0, 4.0)])
      == [Sample("A", 10.0, 4.0), Sample("B", 5.0, 4.0)]
  {
    var a := Sample("A", 10.0, 4.0);
    var b := Sample("B", 5.0, 4.0);
    assert [a, b][1..] == [b];
    assert SortBy(PriceLowToHigh, [b]) == [b];
    assert SortBy(RatingHighToLow, [b]) == [b];
  }
}
