/**
 * What the browser client computes for display: the star row for a rating,
 * the slice of products on the current page, the page-number window of the
 * pagination bar, and parseFloat() of the price and rating inputs.
 */
module ClientView {
  import opened Wrappers
  import Text

  /** One star of the rating row. */
  datatype Star = Full | Half | Hollow

  /** Math.ceil on an exact real. */
  function Ceil(x: real): (c: int)
    ensures c as real - 1.0 < x <= c as real
  {
    if x.Floor as real == x then x.Floor else x.Floor + 1
  }

  /** `rating % 1 !== 0`: the rating has a fractional part. */
  predicate Fractional(rating: real) {
    rating.Floor as real != rating
  }

  /** `n` copies of a star; none when `n` is not positive. */
  function Repeat(s: Star, n: int): (r: seq<Star>)
    ensures |r| == if n < 0 then 0 else n
    ensures forall i :: 0 <= i < |r| ==> r[i] == s
  {
    if n <= 0 then [] else Repeat(s, n - 1) + [s]
  }

  /** The stars renderStars draws: floor(rating) full, a half when fractional, 5 - ceil(rating) hollow. */
  function Stars(rating: real): seq<Star> {
    Repeat(Full, rating.Floor) + (if Fractional(rating) then [Half] else []) + Repeat(Hollow, 5 - Ceil(rating))
  }

  /** One of renderStars' loops: appends `count` copies of `star`, none when `count` is not positive. */
  method AppendStars(stars: seq<Star>, star: Star, count: int) returns (out: seq<Star>)
    ensures out == stars + Repeat(star, count)
  {
    out := stars;
    var i := 0;
    while i < count
      invariant 0 <= i <= if count < 0 then 0 else count
      invariant out == stars + Repeat(star, i)
    {
      out := out + [star];
      i := i + 1;
    }
  }

  /** renderStars: floor(rating) full stars, a half star for a fractional rating, then 5 - ceil(rating) hollow ones. */
  method RenderStars(rating: real) returns (stars: seq<Star>)
    ensures stars == Stars(rating)
  {
    var fullStars := rating.Floor;
    var hasHalfStar := Fractional(rating);
    stars := AppendStars([], Full, fullStars);
    if hasHalfStar {
      stars := stars + [Half];
    }
    var emptyStars := 5 - Ceil(rating);
    stars := AppendStars(stars, Hollow, emptyStars);
  }

  /**
   * For a rating from 0 to 5 the row has five stars: the first floor(rating)
   * full, then a half star exactly when the rating is fractional, then hollow ones.
   */
  lemma StarsOfRating(rating: real)
    requires 0.0 <= rating <= 5.0
    ensures |Stars(rating)| == 5
    ensures forall i :: 0 <= i < 5 ==> (Stars(rating)[i] == Full <==> i < rating.Floor)
    ensures forall i :: 0 <= i < 5 ==> (Stars(rating)[i] == Half <==> i == rating.Floor && Fractional(rating))
  {
    var full := Repeat(Full, rating.Floor);
    var half: seq<Star> := if Fractional(rating) then [Half] else [];
    var hollow := Repeat(Hollow, 5 - Ceil(rating));
    var s := Stars(rating);
    assert s == full + half + hollow;
    assert Fractional(rating) ==> Ceil(rating) == rating.Floor + 1;
    assert !Fractional(rating) ==> Ceil(rating) == rating.Floor;
    forall i | 0 <= i < 5
      ensures (s[i] == Full <==> i < rating.Floor)
      ensures (s[i] == Half <==> i == rating.Floor && Fractional(rating))
    {
      if i < |full| {
        assert s[i] == full[i];
      } else if i < |full| + |half| {
        assert s[i] == half[i - |full|];
      } else {
        assert s[i] == hollow[i - |full| - |half|];
      }
    }
  }

  const PerPage: nat := 12

  /** Math.ceil(n / 12): the number of pages `n` products fill. */
  function TotalPages(n: nat): (pages: nat)
    ensures n == 0 <==> pages == 0
    ensures pages > 0 ==> (pages - 1) * PerPage < n <= pages * PerPage
  {
    (n + PerPage - 1) / PerPage
  }

  /** Array.prototype.slice(start, end): negative positions count from the end, and both are clamped to the array. */
  function Slice<T>(s: seq<T>, start: int, end: int): (r: seq<T>)
    ensures 0 <= start <= end <= |s| ==> r == s[start..end]
    ensures 0 <= start <= |s| <= end ==> r == s[start..]
  {
    var n := |s|;
    var from := if start < 0 then (if n + start < 0 then 0 else n + start) else (if start > n then n else start);
    var to := if end < 0 then (if n + end < 0 then 0 else n + end) else (if end > n then n else end);
    if from < to then s[from..to] else []
  }

  /** The products renderProducts shows on page `page`. */
  function PageSlice<T>(items: seq<T>, page: int): seq<T> {
    var start := (page - 1) * PerPage;
    Slice(items, start, start + PerPage)
  }

  /** A page holds at most 12 products, and the product at index i is on page i / 12 + 1 at position i % 12. */
  lemma PageSliceItems<T>(items: seq<T>, page: int)
    requires page >= 1
    ensures |PageSlice(items, page)| <= PerPage
    ensures forall i :: 0 <= i < |items| && i / PerPage + 1 == page ==> PageSlice(items, page)[i % PerPage] == items[i]
    ensures page <= TotalPages(|items|) ==> PageSlice(items, page) != []
  {
  }

  /** Every product is on one of the pages the pagination offers. */
  lemma ItemHasPage<T>(items: seq<T>, i: nat)
    requires i < |items|
    ensures 1 <= i / PerPage + 1 <= TotalPages(|items|)
  {
  }

  /** The controls of the pagination bar; a gap shows "..." in place of page `at`. */
  datatype PageItem = Previous(target: int, disabled: bool) | PageLink(page: int, active: bool) | Gap(at: int) | Next(target: int, disabled: bool)

  /** A page number is shown: the first, the last, or within two of the current page. */
  predicate Listed(current: int, total: int, i: int) {
    i == 1 || i == total || (current - 2 <= i && i <= current + 2)
  }

  /** What the loop emits for page `i`. */
  function PageEntry(current: int, total: int, i: int): seq<PageItem> {
    if Listed(current, total, i) then [PageLink(i, i == current)]
    else if i == current - 3 || i == current + 3 then [Gap(i)]
    else []
  }

  /** What the loop emits for pages 1 to `k`, in order. */
  function PageEntries(current: int, total: int, k: nat): seq<PageItem> {
    if k == 0 then [] else PageEntries(current, total, k - 1) + PageEntry(current, total, k)
  }

  /**
   * renderPagination: nothing when everything fits on one page; otherwise
   * Previous, the page window, and Next.
   */
  method Pagination(current: int, itemCount: nat) returns (items: seq<PageItem>)
    ensures TotalPages(itemCount) <= 1 ==> items == []
    ensures TotalPages(itemCount) > 1 ==>
      var total := TotalPages(itemCount);
      items == [Previous(current - 1, current == 1)] + PageEntries(current, total, total) + [Next(current + 1, current == total)]
  {
    var totalPages := TotalPages(itemCount);
    if totalPages <= 1 {
      return [];
    }
    items := [Previous(current - 1, current == 1)];
    ghost var head := items;
    for i := 1 to totalPages + 1
      invariant items == head + PageEntries(current, totalPages, i - 1)
    {
      if i == 1 || i == totalPages || (i >= current - 2 && i <= current + 2) {
        items := items + [PageLink(i, i == current)];
      } else if i == current - 3 || i == current + 3 {
        items := items + [Gap(i)];
      }
    }
    items := items + [Next(current + 1, current == totalPages)];
  }

  /** An item of the window belongs to one of the pages 1 to `k`. */
  lemma {:induction false} EntriesFrom(current: int, total: int, k: nat, x: PageItem)
    ensures x in PageEntries(current, total, k) <==> exists i :: 1 <= i <= k && x in PageEntry(current, total, i)
  {
    if k > 0 {
      EntriesFrom(current, total, k - 1, x);
    }
  }

  /**
   * The page window lists page i (active exactly when it is the current
   * page) iff i is the first, the last or within two of the current page,
   * and shows a gap only for an unlisted page three away from the current one.
   */
  lemma PageWindow(current: int, total: nat)
    ensures forall i, a :: PageLink(i, a) in PageEntries(current, total, total) <==>
      1 <= i <= total && Listed(current, total, i) && a == (i == current)
    ensures forall g :: Gap(g) in PageEntries(current, total, total) <==>
      1 <= g <= total && !Listed(current, total, g) && (g == current - 3 || g == current + 3)
  {
    forall i, a ensures PageLink(i, a) in PageEntries(current, total, total) <==>
      1 <= i <= total && Listed(current, total, i) && a == (i == current)
    {
      EntriesFrom(current, total, total, PageLink(i, a));
      if 1 <= i <= total && Listed(current, total, i) && a == (i == current) {
        assert PageLink(i, a) in PageEntry(current, total, i);
      }
    }
    forall g ensures Gap(g) in PageEntries(current, total, total) <==>
      1 <= g <= total && !Listed(current, total, g) && (g == current - 3 || g == current + 3)
    {
      EntriesFrom(current, total, total, Gap(g));
      if 1 <= g <= total && !Listed(current, total, g) && (g == current - 3 || g == current + 3) {
        assert Gap(g) in PageEntry(current, total, g);
      }
    }
  }

  /** parseFloat(): the decimal number after leading whitespace, or NaN (`None`) when there is none. */
  function ParseFloat(s: string): Option<real> {
    Text.DecimalPrefix(Text.TrimStart(s, Text.IsJsSpace))
  }

  /**
   * An empty or all-blank price box reads as no bound: the minimum falls
   * back to 0 and the maximum stays open.
   */
  lemma BlankBoxes(s: string)
    requires forall i :: 0 <= i < |s| ==> Text.IsJsSpace(s[i])
    ensures ParseFloat(s) == None
    ensures ParseFloatOrZero(s) == 0.0
    ensures ParseFloatOrInfinity(s) == None
  {
    var t := Text.TrimStart(s, Text.IsJsSpace);
    assert t == [];
    Text.NoNumberWithoutDigit(t);
  }

  /** A maximum price of "0" leaves the bound open, like an empty box, because 0 is falsy. */
  lemma ZeroMaxIsOpen()
    ensures ParseFloat("0") == Some(0.0)
    ensures ParseFloatOrInfinity("0") == None
  {
    assert Text.TrimStart("0", Text.IsJsSpace) == "0";
  }

  /** `parseFloat(s) || 0`: NaN and 0 both give 0. */
  function ParseFloatOrZero(s: string): (x: real)
    ensures ParseFloat(s).None? ==> x == 0.0
    ensures ParseFloat(s).Some? ==> x == ParseFloat(s).value
  {
    ParseFloat(s).GetOr(0.0)
  }

  /** `parseFloat(s) || Infinity`: NaN and 0 both leave the bound open (`None`). */
  function ParseFloatOrInfinity(s: string): (bound: Option<real>)
    ensures bound.None? <==> ParseFloat(s).None? || ParseFloat(s).value == 0.0
    ensures bound.Some? ==> bound == ParseFloat(s)
  {
    match ParseFloat(s)
    case None => None
    case Some(x) => if x == 0.0 then None else Some(x)
  }
}
