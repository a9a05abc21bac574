# E-commerce catalog: a verified model of its core logic

This project models the logic at the core of a small e-commerce catalog in
Dafny. The catalog has three parts.

- **The PHP catalog API** (`backend_ecom/api.php`).
  - The product query `getAllProducts`: five optional filter stages in a
    fixed order (category, minPrice, maxPrice, minRating, search), then an
    optional stable sort.
  - Product validation, and creation, lookup, update and deletion of
    products.
  - Category counts, order validation and intake, and the counting part of
    `getAnalytics`.
  - The three JSON files are the `seq` fields of class
    `CatalogStore`. The operations that only read them take the lists as
    parameters.
- **The browser client** (class `EcommerceApp` of `frontend/script.js`).
  - Its cart, its own search, filter and sort of the shown products, and
    paging.
  - What it computes for display: the cart count, the star row of a rating,
    the page slice and the page-number window of the pagination bar.
  - These are the fields and methods of class `ClientApp.EcommerceApp` and
    the functions of `ClientView`.
- **The offline analytics report** (`backend_ecom/ecommerce_analytics.py`):
  the counts, buckets, tallies, top-N lists and stock lists of each
  analysis, as functions of the product and order lists.

The modules are:

| module | file | contents |
|---|---|---|
| `Wrappers` | wrappers.dfy | `Option` |
| `Seqs` | seqs.dfy | order-preserving filter (`array_filter` + `array_values`, `Array.prototype.filter`, list comprehensions) and its lemmas |
| `Text` | text.dfy | ASCII lower-casing, substring search, trimming, byte-wise order (`strcmp`), decimal prefixes |
| `Php` | php.dfy | `empty()`, `floatval()`, `intval()`, `boolval()`, `is_numeric()` |
| `Catalog` | catalog.dfy | product, category and order records |
| `Sorting` | sorting.dfy | the sort keys and one stable sort |
| `Tally` | tally.dfy | counting by key in order of first appearance |
| `ProductQuery` | product_query.dfy | `getAllProducts` |
| `CatalogApi` | catalog_api.dfy | the rest of the API |
| `ClientView` | client_view.dfy | stars, page slice, pagination, `parseFloat` |
| `ClientApp` | client_app.dfy | `EcommerceApp` |
| `OfflineAnalytics` | analytics.dfy | the analytics report |

All three sorts the system uses are stable: PHP 8's `usort`, ES2019's
`Array.prototype.sort` and Python's `sorted`, also with `reverse=True`. So
all of them are modelled by the one stable insertion sort `Sorting.SortBy`.
Its stability is proved as `Sorting.SortByStable`: for every key value, the
elements with that key keep their relative order.

Several behaviours of the code are easy to miss. The model keeps each of
them:

- A non-numeric `minPrice`, `maxPrice` or `minRating` is not ignored.
  `floatval()` turns it into the bound 0.
  - A garbage `maxPrice` keeps only products priced at most 0
    (`ProductQuery.GarbageMaxPrice`).
  - A garbage `minPrice` is harmless only when no price is negative
    (`ProductQuery.GarbageMinPrice`).
- A parameter `"0"` is `empty()` and skips its stage, exactly like an absent
  one (`ProductQuery.ZeroSkipsStage`).
- An update whose body holds only a price does not change the price alone.
  `updateProduct` validates its body like `createProduct`, so the update is
  rejected with the name, description and category messages
  (`CatalogApi.PriceOnlyRejected`).
- The server's search term is lower-cased but not trimmed. The client's is
  lower-cased and then trimmed.
- `clearFilters` shows every product. Applying the cleared sidebar through
  `applyFilters` would not: an empty minimum price reads as 0 and hides
  negative prices (`ClientApp.ClearedKeepsAll`,
  `ClientApp.ClearedHidesNegativePrice`).
- Removing a filter parameter never shrinks the result: the narrower result
  is a subsequence of the wider one (`ProductQuery.DroppingParamWidens`).

## Model

| member | source | states |
|---|---|---|
| Php.Truncate | backend_ecom/api.php:273 | intval() of a float drops the fraction toward zero, for either sign (for floats a 64-bit int can hold; see "Left out") |
| Php.FloatValOfText | backend_ecom/api.php:175-185 | text that does not start like a number converts to 0 and is not numeric |
| Tally.IndexOfKey | backend_ecom/api.php:484 | the position of a key in the tally, or -1 exactly when the key is not present |
| Tally.Bump | backend_ecom/api.php:484-487 | counting a key raises its own entry by one, or appends it with count 1; keys stay distinct and the total grows by one |
| Tally.CountBy | backend_ecom/api.php:481-488 | one entry per distinct key; each count is the number of elements with that key; every element's key is present; the counts add up to the length |
| Sorting.PrecedesTotal | backend_ecom/api.php:206-224 | of two products, one may always come before the other under each comparator |
| Sorting.PrecedesTransitive | backend_ecom/api.php:206-224 | each comparator's order is transitive |
| Sorting.SortBy | backend_ecom/api.php:206-224 | the result is ordered by the key and is a permutation of the input |
| Sorting.SortByStable | backend_ecom/api.php:206-224 | for every key value, the elements with that key keep their input order |
| ProductQuery.SortParamOrders | backend_ecom/api.php:203-226 | "name" asks for names ascending by strcmp, "price-low" for non-decreasing prices, "price-high" for non-increasing prices, "rating" for non-increasing ratings; an absent, empty or unknown sort asks for no sort |
| ProductQuery.StageStep | backend_ecom/api.php:169-200 | running a stage when its parameter is set, or skipping it, extends the survivors of the earlier stages by one stage |
| ProductQuery.AllStages | backend_ecom/api.php:169-200 | surviving all five stages in order is being selected |
| ProductQuery.MatchingMembers | backend_ecom/api.php:169-200 | a product is in the result exactly when it is in the catalog and passes every active stage |
| ProductQuery.RunStage | backend_ecom/api.php:169-200 | one `if (!empty(..)) array_filter(..)` step turns the survivors of `n` stages into those of `n + 1` |
| ProductQuery.ApplyStages | backend_ecom/api.php:168-200 | the five filter steps, in order, keep exactly the selected products in catalog order |
| ProductQuery.SortStage | backend_ecom/api.php:203-226 | no key leaves the list alone; a key sorts it stably, as a permutation |
| ProductQuery.GetAllProducts | backend_ecom/api.php:165-233 | the selected products, and only they; with "name", "price-low", "price-high" or "rating" ordered by that field as a stable permutation; otherwise exactly the selected products in catalog order; count is their number |
| ProductQuery.NoFiltersKeepAll | backend_ecom/api.php:165-232 | no parameters select every product, in catalog order |
| ProductQuery.ZeroSkipsStage | backend_ecom/api.php:175-193 | a parameter "0" or "" selects exactly what an absent parameter selects |
| ProductQuery.DroppingParamWidens | backend_ecom/api.php:169-200 | removing a parameter never shrinks the result; the narrower result is the wider one filtered again |
| ProductQuery.GarbageMaxPrice | backend_ecom/api.php:181-185 | a non-numeric maxPrice keeps only products priced at most 0 |
| ProductQuery.GarbageMinPrice | backend_ecom/api.php:175-179 | a non-numeric minPrice selects what no minPrice selects, provided no price is negative |
| ProductQuery.SearchIgnoresCase | backend_ecom/api.php:193-199 | a term and its lower-cased form select the same products |
| ProductQuery.LoweredSearch | backend_ecom/api.php:193-194 | lower-casing a term changes neither the term searched for nor whether it is empty() |
| ProductQuery.SameSearch | backend_ecom/api.php:193-199 | two terms that agree after lower-casing, and on empty(), select the same products |
| ProductQuery.SortExample | backend_ecom/api.php:210-224 | prices 10 and 5 with equal ratings: price-low swaps them, rating keeps their order |
| CatalogApi.ProductErrorsReport | backend_ecom/api.php:376-396 | each message is reported exactly when its rule is broken (name, description or category empty(); price unset, non-numeric or at most 0); no errors exactly when the body is valid |
| CatalogApi.ProductErrorsOrdered | backend_ecom/api.php:376-396 | the errors come in the order the rules are checked, none twice |
| CatalogApi.ValidateProduct | backend_ecom/api.php:376-396 | pushing one message per broken rule yields exactly the errors above |
| CatalogApi.PriceOnlyRejected | backend_ecom/api.php:299-307 | a body with only a valid price fails with the name, description and category messages |
| CatalogApi.NewProduct | backend_ecom/api.php:265-281 | the given id and timestamp, trimmed name and description, floatval price, the category; originalPrice is floatval of the sent value and null exactly when absent; a sent rating, reviews, image, inStock, stock, featured or badges is stored through floatval, intval or boolval (image and badges as sent); absent ones get rating 0, reviews 0, image '', inStock true, stock 0, featured false, badges [] |
| CatalogApi.Revised | backend_ecom/api.php:312-325 | id and createdAt never change; name, description, price and category are overwritten; originalPrice is floatval of the sent value and null exactly when absent; a sent rating, reviews, image, inStock, stock, featured or badges overwrites the old one through floatval, intval or boolval (image and badges as sent); updatedAt is now |
| CatalogApi.RevisedKeeps | backend_ecom/api.php:318-324 | rating, reviews, image, inStock, stock, featured and badges absent from the body keep their old values |
| CatalogApi.Lookup | backend_ecom/api.php:238-245 | finds nothing exactly when no product has the id; otherwise a product of the list with that id |
| CatalogApi.GetProduct | backend_ecom/api.php:235-251 | succeeds exactly when some product has the id, answering the first one; otherwise "Product not found" |
| CatalogApi.CreateThenGet | backend_ecom/api.php:283 | a product appended under an id no other product has is what a lookup of that id finds |
| CatalogApi.DeleteThenGet | backend_ecom/api.php:352-354 | after the products with an id are removed, a lookup of that id finds nothing |
| CatalogApi.UpdateThenGet | backend_ecom/api.php:311-325 | after the first product with an id is revised, a lookup of that id finds the revised product |
| CatalogApi.FilterDropsId | backend_ecom/api.php:350-356 | removing an id shortens the list exactly when some product has that id |
| CatalogApi.OrderErrors | backend_ecom/api.php:458-470 | the items message exactly when items are missing, not a list or empty; the total message exactly when the total is unset, non-numeric or at most 0; both, items first, when both apply |
| CatalogApi.ValidateOrder | backend_ecom/api.php:458-470 | pushing one message per broken rule yields exactly the order errors |
| CatalogApi.NewOrder | backend_ecom/api.php:429-440 | the given id and timestamp, the items as sent, floatval subtotal, shipping, tax and total, status "pending", the customer info as sent or empty when absent |
| CatalogApi.GetAllCategories | backend_ecom/api.php:399-414 | every category in stored order and otherwise unchanged, with the number of products whose category is its id |
| CatalogApi.CategoryCount | backend_ecom/api.php:405-407 | the size of a category's filter is its number of occurrences |
| CatalogApi.RecentOrders | backend_ecom/api.php:501 | the first min(10, n) orders of the reversed list are the last ten orders, newest first: entry i is the order i places from the end |
| Seqs.Reverse | backend_ecom/api.php:501 | array_reverse: as long as the list, entry i is entry n-1-i of the list |
| CatalogApi.CategoryCountStep | backend_ecom/api.php:482-488 | setting a new category to 1, or incrementing a seen one, tallies one more product |
| CatalogApi.GetAnalytics | backend_ecom/api.php:473-504 | the product and order counts; categoryStats is the per-category tally, whose counts add up to the product count; the recent orders |
| CatalogApi.CatalogStore.CreateProduct | backend_ecom/api.php:253-297 | an invalid body changes nothing and reports every error; otherwise the new product is appended and nothing else changes, unless the save fails |
| CatalogApi.CatalogStore.UpdateProduct | backend_ecom/api.php:299-346 | an invalid body or an unknown id changes nothing; otherwise only the first product with that id is replaced by its revision, unless the save fails |
| CatalogApi.CatalogStore.DeleteProduct | backend_ecom/api.php:348-374 | removes every product with the id, keeping the rest in order; "Product not found" exactly when none has it |
| CatalogApi.CatalogStore.CreateOrder | backend_ecom/api.php:417-456 | an invalid body changes nothing; otherwise the pending order is appended and nothing else changes, unless the save fails |
| ClientView.Ceil | frontend/script.js:457 | Math.ceil: the least integer not below the rating |
| ClientView.Repeat | frontend/script.js:449-451 | n copies of a star, none for n <= 0 |
| ClientView.AppendStars | frontend/script.js:458-460 | one of renderStars' loops appends exactly `count` stars, none when count is not positive |
| ClientView.RenderStars | frontend/script.js:444-463 | floor(rating) full stars, a half star for a fractional rating, then 5 - ceil(rating) hollow ones |
| ClientView.StarsOfRating | frontend/script.js:444-463 | for ratings from 0 to 5: five stars; star i is full exactly when i < floor(rating); the half star is at floor(rating) exactly when the rating is fractional |
| ClientView.TotalPages | frontend/script.js:466 | ceil(n / 12): zero exactly when there are no products, and the pages hold all n products with the last one non-empty |
| ClientView.Slice | frontend/script.js:379 | Array.prototype.slice inside bounds is the subsequence, and an end past the array stops at its end |
| ClientView.PageSliceItems | frontend/script.js:376-379 | a page holds at most 12 products; product i appears on page i / 12 + 1 at position i % 12; every page up to the page count is non-empty |
| ClientView.ItemHasPage | frontend/script.js:506-509 | every product's page is one goToPage accepts |
| ClientView.Pagination | frontend/script.js:465-504 | nothing when everything fits on one page; otherwise Previous (disabled on page 1), the page window, and Next (disabled on the last page) |
| ClientView.PageWindow | frontend/script.js:484-494 | page i is listed exactly when it is the first, the last or within two of the current page, and is active exactly when current; a gap shows only for an unlisted page three away |
| ClientView.BlankBoxes | frontend/script.js:327-328 | an empty or all-blank price box parses to NaN, so the minimum price is 0 and the maximum price is open |
| ClientView.ZeroMaxIsOpen | frontend/script.js:328 | a maximum price of "0" parses to 0, which is falsy, so the maximum is open as if the box were empty |
| ClientApp.CartCountAppend | frontend/script.js:283 | appending a line adds its quantity to the cart count |
| ClientApp.CartCountUpdate | frontend/script.js:283 | replacing a line changes the count by the difference of the quantities |
| ClientApp.NotInCart | frontend/script.js:262 | removing a product with no line leaves the cart as it is |
| ClientApp.CartCountRemove | frontend/script.js:261-266 | removing the one line of a product takes its quantity off the count |
| ClientApp.FilterKeepsUnique | frontend/script.js:262 | removing lines keeps the cart's product ids distinct |
| ClientApp.UpdateKeepsUnique | frontend/script.js:245 | changing a line's quantity keeps the ids distinct |
| ClientApp.AppendKeepsUnique | frontend/script.js:247-253 | appending a line for a product without one keeps the ids distinct |
| ClientApp.SearchTermOf | frontend/script.js:301 | the search term is lower-case, starts and ends with a non-space, and is no longer than the query |
| ClientApp.SearchTermNormal | frontend/script.js:301 | normalising a normalised query changes nothing |
| ClientApp.EmptySearchKeepsAll | frontend/script.js:303-310 | an empty term would match every product, so showing all products is the same as filtering |
| ClientApp.AllRatingsSkipStep | frontend/script.js:332-336 | the "all" rating is never parsed and skips the rating step: a product is kept exactly when its category and price pass |
| ClientApp.OtherRatingFilters | frontend/script.js:332-336 | any other rating is parsed with parseFloat, and a kept product's rating is at least that value (NaN keeps nothing) |
| ClientApp.ClearedFormReads | frontend/script.js:343-347 | the cleared sidebar reads as every category, minimum 0, no maximum, every rating |
| ClientApp.ClearedKeepsAll | frontend/script.js:343-353 | applying the cleared sidebar keeps every product, provided no price is negative |
| ClientApp.ClearedHidesNegativePrice | frontend/script.js:327-329 | the cleared sidebar hides a negative price |
| ClientApp.SortSelectOrders | frontend/script.js:358-371 | "name" asks for names ascending (byte-wise), "price-low" for non-decreasing prices, "price-high" for non-increasing prices, "rating" for non-increasing ratings; any other value asks for no sort |
| ClientApp.Narrow | frontend/script.js:318-336 | one filter step keeps what it accepts of the earlier steps' survivors, which are the products all steps so far accept |
| ClientApp.FilterProducts | frontend/script.js:317-338 | category, price range and rating steps, in order, keep exactly the products meeting all three, in catalog order |
| ClientApp.EcommerceApp.constructor | frontend/script.js:4-14 | the catalog is shown from page 1, with the saved cart |
| ClientApp.EcommerceApp.VisibleProducts | frontend/script.js:376-379 | at most 12 catalog products; product i of the list is shown at position i % 12 on page i / 12 + 1; a non-empty list shows a non-empty page |
| ClientApp.EcommerceApp.AddToCart | frontend/script.js:238-259 | an unknown product changes nothing; a product in the cart has only its line's quantity raised; otherwise one line is appended that copies the product's id, name, price and image with the given quantity; ids stay distinct; the count grows by the quantity |
| ClientApp.EcommerceApp.RemoveFromCart | frontend/script.js:261-266 | every line of the product goes and the others stay in order; with distinct ids the count drops by the line's quantity |
| ClientApp.EcommerceApp.UpdateCartQuantity | frontend/script.js:268-280 | nothing for a product not in the cart; quantity <= 0 removes it; otherwise only its line's quantity is set, and the count changes by the difference |
| ClientApp.EcommerceApp.SearchProducts | frontend/script.js:300-315 | an empty term shows all products, another the products matching it in catalog order; page 1 |
| ClientApp.EcommerceApp.ApplyFilters | frontend/script.js:317-341 | the products the sidebar keeps, in catalog order, from page 1 |
| ClientApp.EcommerceApp.ShowMatching | frontend/script.js:338-340 | a product is shown exactly when it is in the catalog and meets the criteria; page 1 |
| ClientApp.EcommerceApp.ClearFilters | frontend/script.js:343-353 | every product again, on page 1 |
| ClientApp.EcommerceApp.SortProducts | frontend/script.js:355-374 | a known key sorts the shown products stably and as a permutation, with prices or ratings in the order the key names; any other value leaves them alone; the page stays valid |
| ClientApp.EcommerceApp.GoToPage | frontend/script.js:506-513 | a page from 1 to the page count becomes current; anything else is ignored |
| ClientApp.EcommerceApp.RenderPagination | frontend/script.js:465-504 | the pagination bar of the current list and page |
| OfflineAnalytics.GetProductStats | backend_ecom/ecommerce_analytics.py:47-73 | all zero without products; the in-stock count is the number of products in stock and the featured count the number featured, at most the total; the out-of-stock count is the number not in stock, and the two stock counts add up to the total |
| OfflineAnalytics.ReviewsInFilter | backend_ecom/ecommerce_analytics.py:85-94 | a category's review total is the review sum of its products |
| OfflineAnalytics.AddToCategory | backend_ecom/ecommerce_analytics.py:85-94 | one pass of the loop keeps the tallies and sums exact for the products seen so far |
| OfflineAnalytics.CategoryAnalysis | backend_ecom/ecommerce_analytics.py:75-102 | one entry per category in order of first appearance; each count is the number of the category's products and the counts add up to the product count; each review and value total is the category's sum |
| OfflineAnalytics.SummaryComplete | backend_ecom/ecommerce_analytics.py:75-102 | the counts of a complete summary add up to the product count, and every product's category has an entry |
| OfflineAnalytics.MinPrice | backend_ecom/ecommerce_analytics.py:112 | a price of the list that no price undercuts |
| OfflineAnalytics.MaxPrice | backend_ecom/ecommerce_analytics.py:113 | a price of the list that no price exceeds |
| OfflineAnalytics.PriceRangesPartition | backend_ecom/ecommerce_analytics.py:115-120 | the four price ranges partition the products |
| OfflineAnalytics.GetPriceAnalysis | backend_ecom/ecommerce_analytics.py:104-121 | nothing exactly without products; otherwise the attained lowest and highest price and the bucket counts, which add up to the product count |
| OfflineAnalytics.RatingBucketsPartition | backend_ecom/ecommerce_analytics.py:133-139 | the five rating buckets partition the products |
| OfflineAnalytics.GetRatingAnalysis | backend_ecom/ecommerce_analytics.py:123-140 | nothing exactly without products; otherwise the bucket counts, which add up to the product count |
| OfflineAnalytics.GetSalesAnalysis | backend_ecom/ecommerce_analytics.py:142-158 | zero and no statuses without orders; otherwise one entry per status counting its orders, the counts adding up to the order count |
| OfflineAnalytics.TopKeyOrders | backend_ecom/ecommerce_analytics.py:183-192 | "rating", "reviews" and "price" rank the top products by that field from highest to lowest; any other value takes them in list order |
| OfflineAnalytics.TopProducts | backend_ecom/ecommerce_analytics.py:178-192 | a prefix of the sorted products (or of the products for an unknown key) as long as Python's `[:limit]`: min(limit, n) for limit >= 0, and n + limit but at least 0 for a negative limit |
| OfflineAnalytics.TopAreBest | backend_ecom/ecommerce_analytics.py:178-192 | the top products are ranked, drawn from the products, and rank no lower than any product left out |
| OfflineAnalytics.PrefixIsBest | backend_ecom/ecommerce_analytics.py:192 | a prefix of a sorted list is sorted and ranks no lower than the rest |
| OfflineAnalytics.NoProductsNoTop | backend_ecom/ecommerce_analytics.py:180-181 | no products give no top products |
| OfflineAnalytics.StockWithoutEmpty | backend_ecom/ecommerce_analytics.py:199 | products out of stock add nothing to the units in stock |
| OfflineAnalytics.OutOfStockAreLow | backend_ecom/ecommerce_analytics.py:200-201 | every out-of-stock product is low on stock, so there are no more of the first, and their names are among the second's |
| OfflineAnalytics.GetInventoryAnalysis | backend_ecom/ecommerce_analytics.py:194-210 | nothing exactly without products; otherwise the names, in order, of the low-stock and out-of-stock products with their counts, the second within the first; the units in stock and the value of the stock (price times units), to which products without stock add nothing |
| OfflineAnalytics.StockValueWithoutEmpty | backend_ecom/ecommerce_analytics.py:204 | products with stock 0 add nothing to the value of the stock |

## Left out

- HTTP handling: routing, CORS headers, the OPTIONS preflight, JSON encoding and status codes. These are I/O glue.
- File persistence and seeding: loading a JSON file is a parameter or a `CatalogStore` field. Whether a save succeeds is the `saved` parameter. Python's `load_data` is a parameter too.
- Generated ids and `date('c')` timestamps are parameters. Id uniqueness is not claimed.
- Floating point: prices, ratings and amounts are exact reals. Rounding, averages, `totalRevenue`, `averageRating`, numpy median and mean, and the cart subtotal, shipping, tax and `toFixed` are not modelled.
- Monthly revenue, insight strings, report text, plots and the CSV export of the analytics script. These are formatting and foreign libraries.
- `floatval()`, `is_numeric()` and `parseFloat()` read an optional sign, digits and an optional fraction. Exponent notation, hexadecimal and `Infinity` text are not read. So a price or total such as "1e3", which `is_numeric()` accepts, is rejected by `CatalogApi.ValidateProduct` and `CatalogApi.ValidateOrder` in the model.
- Python's `.get(key, default)` defaults: records always carry every field. The `'unknown'` category and status defaults are not modelled.
- The numeric and boolean request fields (price, originalPrice, rating, reviews, inStock, stock, featured, subtotal, shipping, tax, total) may be strings, numbers or booleans. The name, description, category and image fields are strings only: a JSON number, `false` or `0` sent there, which `empty()` and `trim()` treat differently, is not modelled. Nested JSON values other than order items, a list of badge strings and a string-to-string customer map are not modelled.
- Lower-casing is ASCII only. JavaScript's and PHP's Unicode case mapping is not modelled.
- `localeCompare` in the client's name sort is modelled as byte-wise comparison, like the server's `strcmp`. Locale collation is not modelled.
- Product ids are integers, and getProduct's and deleteProduct's loose `==` and `!=` are integer comparisons. Comparing against a non-numeric id string is not modelled.
- PHP turns numeric category names into integer array keys in `categoryStats`. This does not change the counts and is not modelled.
- The in-place sorts (`usort`, `Array.prototype.sort`) and the in-place cart-line update are modelled as new sequences assigned to the field. Aliasing of the cart line objects is not modelled.
- DOM rendering, event wiring, the product modal, alerts and `localStorage`. The saved cart is a constructor parameter, and `saveCart` is not modelled.
- The client's `categories` and `currentProduct` fields. They are used only for rendering.
- Concurrent requests on the same JSON file.
- Php.Truncate / Php.ToInt: integers are unbounded. PHP's 64-bit `int` is not modelled: `intval()` of numeric text beyond 2^63 saturates to the largest or smallest int, and `intval()` of a float outside that range is undefined and wraps in practice; the model returns the exact integer in both cases. The same holds for `reviews` and `stock` in CatalogApi.NewProduct and CatalogApi.Revised. The client's cart quantities and counts are JavaScript numbers, exact only up to 2^53; the model uses unbounded integers there too.
- ClientApp.EcommerceApp.UpdateCartQuantity: the quantity is an integer. The cart's quantity box passes `parseInt(this.value)`, which is NaN for an empty or non-numeric box; `NaN <= 0` is false, so the code stores NaN as the line's quantity and the badge count becomes NaN. NaN quantities are not modelled.
- OfflineAnalytics.GetProductStats: the average price and rating are not modelled, because they are floating-point divisions and rounding.
- OfflineAnalytics.CategoryAnalysis: the per-category average price and rating are not modelled, for the same reason.
- OfflineAnalytics.GetSalesAnalysis: total revenue, average order value and monthly revenue are not modelled, because they are floating-point sums and date parsing.
