/**
 * The product orderings of the catalog and a stable sort by them. PHP's
 * usort (PHP 8), JavaScript's Array.prototype.sort (ES2019) and Python's
 * sorted (also with reverse=True) are all stable, so each of them yields the
 * one ordering `SortBy` defines: sorted by the key, ties in input order.
 */
module Sorting {
  import opened Seqs
  import Text
  import opened Catalog

  /** The orderings offered: by name (strcmp), by price either way, by rating or review count descending. */
  datatype SortKey = ByName | PriceLowToHigh | PriceHighToLow | RatingHighToLow | ReviewsHighToLow

  /** `a` may come before `b`: the comparator returns a value <= 0. */
  predicate Precedes(k: SortKey, a: Product, b: Product) {
    match k
    case ByName => Text.LexLe(a.name, b.name)
    case PriceLowToHigh => a.price <= b.price
    case PriceHighToLow => a.price >= b.price
    case RatingHighToLow => a.rating >= b.rating
    case ReviewsHighToLow => a.reviews >= b.reviews
  }

  /** The comparator returns 0: equal keys. */
  predicate Tie(k: SortKey, a: Product, b: Product) {
    Precedes(k, a, b) && Precedes(k, b, a)
  }

  lemma PrecedesTotal(k: SortKey, a: Product, b: Product)
    ensures Precedes(k, a, b) || Precedes(k, b, a)
  {
    if k == ByName {
      Text.LexLeTotal(a.name, b.name);
    }
  }

  lemma PrecedesTransitive(k: SortKey, a: Product, b: Product, c: Product)
    requires Precedes(k, a, b) && Precedes(k, b, c)
    ensures Precedes(k, a, c)
  {
    if k == ByName {
      Text.LexLeTransitive(a.name, b.name, c.name);
    }
  }

  predicate SortedBy(k: SortKey, s: seq<Product>) {
    forall i, j :: 0 <= i < j < |s| ==> Precedes(k, s[i], s[j])
  }

  /**
   * What being sorted by each key means for the fields: names ascending
   * byte-wise, prices ascending or descending, ratings or review counts
   * descending.
   */
  lemma SortedByMeans(k: SortKey, s: seq<Product>)
    ensures k == ByName ==> (SortedBy(k, s) <==> forall i, j :: 0 <= i < j < |s| ==> Text.LexLe(s[i].name, s[j].name))
    ensures k == PriceLowToHigh ==> (SortedBy(k, s) <==> forall i, j :: 0 <= i < j < |s| ==> s[i].price <= s[j].price)
    ensures k == PriceHighToLow ==> (SortedBy(k, s) <==> forall i, j :: 0 <= i < j < |s| ==> s[i].price >= s[j].price)
    ensures k == RatingHighToLow ==> (SortedBy(k, s) <==> forall i, j :: 0 <= i < j < |s| ==> s[i].rating >= s[j].rating)
    ensures k == ReviewsHighToLow ==> (SortedBy(k, s) <==> forall i, j :: 0 <= i < j < |s| ==> s[i].reviews >= s[j].reviews)
  {
  }

  /** Places `x` before the first element it may precede. */
  function Insert(k: SortKey, x: Product, s: seq<Product>): (r: seq<Product>)
    ensures multiset(r) == multiset(s) + multiset{x}
    ensures |r| == |s| + 1
  {
    if s == [] then [x]
    else if Precedes(k, x, s[0]) then [x] + s
    else
      assert s == [s[0]] + s[1..];
      [s[0]] + Insert(k, x, s[1..])
  }

  lemma {:induction false} InsertSorted(k: SortKey, x: Product, s: seq<Product>)
    requires SortedBy(k, s)
    ensures SortedBy(k, Insert(k, x, s))
  {
    if s == [] {
    } else if Precedes(k, x, s[0]) {
      forall j | 0 < j < |s| ensures Precedes(k, x, s[j]) {
        PrecedesTransitive(k, x, s[0], s[j]);
      }
    } else {
      PrecedesTotal(k, x, s[0]);
      var t := Insert(k, x, s[1..]);
      InsertSorted(k, x, s[1..]);
      HeadPrecedesInsert(k, x, s);
    }
  }

  /** When `x` goes past the head of sorted `s`, the head may precede everything inserted after it. */
  lemma HeadPrecedesInsert(k: SortKey, x: Product, s: seq<Product>)
    requires SortedBy(k, s) && s != [] && Precedes(k, s[0], x)
    ensures forall y :: y in Insert(k, x, s[1..]) ==> Precedes(k, s[0], y)
  {
    var t := Insert(k, x, s[1..]);
    forall y | y in t ensures Precedes(k, s[0], y) {
      assert y in multiset(t);
      if y != x {
        assert y in multiset(s[1..]);
        var m :| 0 <= m < |s[1..]| && s[1..][m] == y;
        assert s[m + 1] == y;
      }
    }
  }

  /** Stable insertion sort: ordered by `k`, and elements with equal keys keep their input order. */
  function SortBy(k: SortKey, s: seq<Product>): (r: seq<Product>)
    ensures |r| == |s| && multiset(r) == multiset(s)
    ensures SortedBy(k, r)
  {
    if s == [] then []
    else
      assert s == [s[0]] + s[1..];
      var t := SortBy(k, s[1..]);
      InsertSorted(k, s[0], t);
      Insert(k, s[0], t)
  }

  /** The elements of `s` whose key equals that of `y`, in their order in `s`. */
  function TiesWith(k: SortKey, s: seq<Product>, y: Product): seq<Product> {
    Filter(s, TieTo(k, y))
  }

  function TieTo(k: SortKey, y: Product): Product -> bool {
    x => Tie(k, x, y)
  }

  lemma {:induction false} InsertKeepsTies(k: SortKey, x: Product, s: seq<Product>, y: Product)
    ensures TiesWith(k, Insert(k, x, s), y) == (if Tie(k, x, y) then [x] else []) + TiesWith(k, s, y)
  {
    FilterOne(x, TieTo(k, y));
    if s == [] {
      assert Insert(k, x, s) == [x];
    } else if Precedes(k, x, s[0]) {
      assert Insert(k, x, s) == [x] + s;
      FilterConcat([x], s, TieTo(k, y));
    } else {
      InsertKeepsTies(k, x, s[1..], y);
      InsertAfterHead(k, x, s, y);
    }
  }

  /** The step of InsertKeepsTies where `x` goes past the head of `s`. */
  lemma InsertAfterHead(k: SortKey, x: Product, s: seq<Product>, y: Product)
    requires s != [] && !Precedes(k, x, s[0])
    requires TiesWith(k, Insert(k, x, s[1..]), y) == (if Tie(k, x, y) then [x] else []) + TiesWith(k, s[1..], y)
    ensures TiesWith(k, Insert(k, x, s), y) == (if Tie(k, x, y) then [x] else []) + TiesWith(k, s, y)
  {
    assert Insert(k, x, s) == [s[0]] + Insert(k, x, s[1..]);
    if Tie(k, x, y) && Tie(k, s[0], y) {
      PrecedesTransitive(k, x, y, s[0]);
    }
    FilterPastHead(s[0], s[1..], Insert(k, x, s[1..]), TieTo(k, y), if Tie(k, x, y) then [x] else []);
    assert [s[0]] + s[1..] == s;
  }

  /** Stability: for every key value, the elements with that key appear in the same order before and after sorting. */
  lemma {:induction false} SortByStable(k: SortKey, s: seq<Product>, y: Product)
    ensures TiesWith(k, SortBy(k, s), y) == TiesWith(k, s, y)
  {
    if s != [] {
      SortByCons(k, s);
      InsertKeepsTies(k, s[0], SortBy(k, s[1..]), y);
      SortByStable(k, s[1..], y);
      TiesCons(k, s, y);
    }
  }

  /** SortBy inserts the first element into the sorted rest. */
  lemma SortByCons(k: SortKey, s: seq<Product>)
    requires s != []
    ensures SortBy(k, s) == Insert(k, s[0], SortBy(k, s[1..]))
  {
  }

  /** The ties of `s` are its first element, if it ties, then the ties of the rest. */
  lemma TiesCons(k: SortKey, s: seq<Product>, y: Product)
    requires s != []
    ensures TiesWith(k, s, y) == (if Tie(k, s[0], y) then [s[0]] else []) + TiesWith(k, s[1..], y)
  {
    var keep := TieTo(k, y);
    FilterConcat([s[0]], s[1..], keep);
    FilterOne(s[0], keep);
    assert s == [s[0]] + s[1..];
  }
}
