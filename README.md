# hakgida storefront core in Dafny

This project models the logic core of the hakgida food-store site and proves properties of it:

- **Login guard** of the Express backend. It covers:
  - the per-IP attempt and block maps;
  - the hourly sweep;
  - the `loginRateLimit` gate in front of the login route;
  - bearer-token and admin-role checks.
- **Product API** and the Sequelize validators of the `Product` and `Category` models:
  - listing with search, filters, sort, `LIMIT`/`OFFSET` and `hasMore`;
  - create, update and delete with their 400 and 404 paths.
- **Storefront catalog pipelines**:
  - the products page: filter, sort, paginate and `truncateDescription`;
  - `ProductManager`: `loadProducts` and its lookups;
  - the product-detail page: lookup, related products and favourites;
  - the three copies of the text sanitiser.
- **In-memory collection edits**:
  - the admin panel's product list: validate, add, edit, delete, search, filter, import and category counts;
  - the shopping cart.
- **Small state machines**:
  - the hero slider and its autoplay timer;
  - the partner strip's move, wrap and drag rules;
  - the product modal and its quantity stepper;
  - the React slider's index updaters;
  - the React image-URL helper.

Where the source updates state in place, the model is a `class` whose methods carry `modifies` clauses. Each such method is proved against a specification function, and the properties are lemmas about those functions. Pure code is modelled as functions and lemmas.

The layout has one module per source file, plus shared modules:

| module | what it holds |
|---|---|
| `Js` | `Option`, JSON values, falsiness, `||` defaults |
| `Text` | JavaScript white space, `trim`, `toLowerCase`, `includes`, `split(/\s+/)`, `join`, number formatting |
| `Numbers` | `Number(...)` on integer numerals |
| `Seqs` | `filter`, `find`, a comparator sort, sums |
| `Catalog` | the backend row as the storefront pages receive it |
| `Sanitize` | one definition of the three identical sanitiser copies |

Outside effects are parameters:

- time is a `now` parameter in milliseconds;
- the rate limiters' answers for the request are given;
- `jwt.verify` is a function from token to outcome;
- the locale collation of the name sort is a comparator;
- the regular-expression attribute-stripping steps of the sanitisers are a function `strip`, and the sanitiser properties hold for every choice of it;
- query results, `localStorage` and the DOM form values arrive as parameters.

The model follows `backend/middleware/security.js` as written:

- `remainingAttempts` is `5 - count` with no floor at zero, as `backend/middleware/security.js` line 115 computes it.
- `firstAttempt` is set when the record is created and never reset, not even by a successful login (lines 86-101).
- The gate checks the block map before either limiter is consumed (lines 137-153).
- `remainingMinutes` is the integer ceiling of the remaining time in minutes.

## Model

| member | source | states |
|---|---|---|
| Js.StrOr | frontend/assets/js/products.js:48-56 | agrees with JavaScript's `||` on the value: a missing or empty string is falsy and gives the fallback, any other string is kept; a non-empty fallback never yields `''` |
| Js.NumOr | frontend/assets/js/products.js:51 | agrees with JavaScript's `||` on the value: a missing number or 0 is falsy and gives the fallback, any other number is kept; a non-zero fallback never yields 0 |
| Catalog.FeaturesOr | frontend/assets/js/products.js:55 | agrees with JavaScript's `||` on the array value: every array, even an empty one, is truthy and kept; only a missing one takes the fallback |
| Text.Lower | frontend/assets/js/products.js:103-104 | lower-casing keeps the length and maps each character on its own; upper-case ASCII becomes lower-case |
| Text.LowerCharFacts | frontend/assets/js/products.js:103-104 | on one character: an ASCII capital moves up by 32 to its small letter, a character that is no capital stays, no capital results, white space is kept both ways |
| Text.LowerFacts | frontend/assets/js/products.js:103-104 | after lower-casing no capital is left, white space sits exactly where it was, and text without capitals comes back unchanged |
| Text.LowerIdempotent | frontend/assets/js/products.js:103-104 | lower-casing twice is lower-casing once |
| Text.Trim | frontend/assets/admin/admin.js:625 | `trim()` returns a contiguous slice of the input with no white space left at either end |
| Text.TrimCut | frontend/assets/admin/admin.js:625 | where `trim()` cuts: only white space lies before and after the kept slice, and the slice has none at its ends |
| Text.TrimBounds | frontend/assets/admin/admin.js:625 | `Trim(s)` is exactly that slice, so `trim()` cuts only white space |
| Text.TrimVisible | frontend/assets/admin/admin.js:625 | trimming keeps every non-white-space character, in order |
| Text.CollapseSpacing | frontend/assets/js/products.js:204 | `replace(/\s+/g, ' ')` leaves no two adjacent white-space characters, only plain spaces, no character the input lacks, and is empty iff the input is |
| Text.CollapseVisible | frontend/assets/js/products.js:204 | collapsing keeps every non-white-space character, in order |
| Text.CollapseIsSplitJoin | frontend/assets/js/products.js:204 | `replace(/\s+/g, ' ')` equals `split(/\s+/).join(' ')`: the pieces between the runs survive and each run becomes one space |
| Text.Squash | frontend/assets/js/components/productManager.js:144 | collapse then trim gives trimmed, single-spaced text built from the input's characters |
| Text.SquashVisible | frontend/assets/js/components/productManager.js:144 | collapse then trim keeps every non-white-space character, in order |
| Text.SquashIsSplitJoin | frontend/assets/js/components/productManager.js:144 | collapse then trim equals splitting on white-space runs, joining with one space and trimming |
| Text.SquashSingleSpaced | frontend/assets/js/components/productManager.js:144 | collapsing and trimming already clean text changes nothing |
| Text.SplitWs | frontend/assets/js/products.js:605 | `split(/\s+/)` always yields at least one piece |
| Text.SplitWsPlain | frontend/assets/js/products.js:605 | splitting trimmed non-empty text gives non-empty words without white space |
| Text.SplitJoin | frontend/assets/js/products.js:610 | joining plain words with one space and splitting again gives back exactly the words |
| Text.IntToString | frontend/deployment-files/assets/js/components/modalManager.js:71 | an integer prints as decimal digits that read back as the number, after a leading `-` exactly when it is negative |
| Text.NatToStringValue | frontend/deployment-files/assets/js/components/modalManager.js:71 | the printed digits of a natural number read back as that number |
| Numbers.IntNumeral | frontend/assets/admin/admin.js:669 | `Number(String(id)) == id` for every integer, so the loose `==` against the edit field finds an id again |
| Seqs.Filter | frontend/assets/js/products.js:98 | `filter` keeps exactly the elements satisfying the test and never grows |
| Seqs.FilterIsSubseq | frontend/assets/js/products.js:98 | a filtered array is a subsequence of the original, in the original order |
| Seqs.FilterTwice | frontend/assets/js/products.js:97-115 | two successive filters are one filter by the conjunction |
| Seqs.FilterMultiset | frontend/assets/js/products.js:98 | filtering keeps each kept element with exactly its multiplicity |
| Seqs.CountWhere | frontend/assets/js/components/productManager.js:379 | `filter(...).length`: bounded by the input length |
| Seqs.CountWhereIndices | frontend/assets/js/components/productManager.js:379 | the filtered length equals the number of positions whose element passes |
| Seqs.Find | frontend/deployment-files/assets/js/product-detail.js:171 | `find` returns an element iff one passes, and then the first that passes |
| Seqs.Sort | frontend/assets/js/products.js:120-131 | the comparator sort returns a permutation of its input |
| Seqs.SortSorted | frontend/assets/js/products.js:120-125 | with a total comparator the sorted result is ordered |
| Seqs.SumOfFilterSplit | frontend/assets/js/components/cartManager.js:53 | the sums over the kept and the dropped elements add up to the whole |
| LoginGuard.IsBlocked | backend/middleware/security.js:57-67 | blocked iff a record exists with `now <= unblockTime`; no record means no change; an expired record is deleted; the attempt map is untouched |
| LoginGuard.Block | backend/middleware/security.js:72-78 | sets or overwrites the block record of the IP to `(now, now + duration, reason)` and leaves every other record alone |
| LoginGuard.BlockLasts | backend/middleware/security.js:62-66 | a block set at `now` still holds at `now + duration` and no longer one millisecond after |
| LoginGuard.Recorded | backend/middleware/security.js:86-101 | `lastAttempt = now`; `firstAttempt` is kept, or is `now` for a new record; success zeroes the count and adds one success; failure adds exactly one to the count |
| LoginGuard.Verdict | backend/middleware/security.js:104-115 | blocked iff `count >= 10`, or `count >= 5` within 15 minutes of the first attempt; 24 h beats 30 min; otherwise `5 - count` remaining |
| LoginGuard.Track | backend/middleware/security.js:84-116 | the attempt map gains the updated record; the block map changes only on a block verdict, to that block; a success never blocks and reports 5 remaining |
| LoginGuard.GetAttempts | backend/middleware/security.js:121-123 | the stored record, or count 0 and no successes for an unknown IP |
| LoginGuard.FailureCountsOne | backend/middleware/security.js:97-100 | a failure adds one to the count and keeps `firstAttempt` and the success count |
| LoginGuard.SuccessKeepsFirstAttempt | backend/middleware/security.js:93-95 | a success after a failure zeroes the count but keeps the original `firstAttempt` |
| LoginGuard.NoShortBlockAfterWindow | backend/middleware/security.js:110 | once 15 minutes have passed since the first attempt the 30-minute block is never given |
| LoginGuard.RemainingCanBeNegative | backend/middleware/security.js:115 | a sixth failure outside the window reports `remainingAttempts` −1 |
| LoginGuard.FailRunAt | backend/middleware/security.js:86-116 | the i-th failure of a run sees count `start + i + 1`, measured from the fixed first-attempt time |
| LoginGuard.FiveQuickFailures | backend/middleware/security.js:109-115 | from no record, five failures within 15 minutes report 4, 3, 2, 1 and then a 30-minute block |
| LoginGuard.TenthFailureBlocksForADay | backend/middleware/security.js:103-107 | from no record the tenth failure blocks for 24 hours whatever the timing, and the block map holds that record |
| LoginGuard.FailRunLastBlock | backend/middleware/security.js:104-113 | after a run ending in a block, the block record is the one set by the last attempt |
| LoginGuard.Sweep | backend/middleware/security.js:38-52 | exactly the attempt records idle for over 24 h and the block records past `unblockTime` are deleted; every other entry is unchanged |
| LoginGuard.SweepKeepsAnswers | backend/middleware/security.js:47-51 | the sweep changes no blocked answer at the same instant, and sweeping twice is sweeping once |
| LoginGuard.CeilDiv | backend/middleware/security.js:139 | `Math.ceil(a / b)` is the least `r` with `a <= b * r` |
| LoginGuard.Throttle | backend/middleware/security.js:156-165 | `Retry-After` is the ceiling of `msBeforeNext` in seconds, and the message's minutes the ceiling of that in minutes |
| LoginGuard.Gate | backend/middleware/security.js:132-173 | a blocked IP gets 429 with ceiling minutes and no limiter consumed; otherwise the strict limiter is asked, then the severe one only if the strict one allowed; a rejection gives 429 by its `msBeforeNext` |
| LoginGuard.GateFailsOpen | backend/middleware/security.js:167-171 | any error other than a limiter rejection lets the request through |
| LoginGuard.GateAtUnblockInstant | backend/middleware/security.js:62-66 | at `now == unblockTime` the gate still refuses with 0 minutes; one millisecond later it does not |
| LoginGuard.Guard.constructor | backend/middleware/security.js:34-35 | both maps start empty |
| LoginGuard.Guard.IsIPBlocked | backend/middleware/security.js:57-67 | the answer and the new maps are those of `IsBlocked` |
| LoginGuard.Guard.BlockIP | backend/middleware/security.js:72-78 | the new maps are `Block`'s; a missing duration is 30 minutes |
| LoginGuard.Guard.TrackLoginAttempt | backend/middleware/security.js:84-116 | the result and the new maps are `Track`'s |
| LoginGuard.Guard.GetLoginAttempts | backend/middleware/security.js:121-123 | the view of the current maps that `GetAttempts` gives |
| LoginGuard.Guard.Cleanup | backend/middleware/security.js:38-52 | the two delete-while-iterating loops leave exactly `Sweep` of the old maps |
| LoginGuard.Guard.SweepAttempts | backend/middleware/security.js:41-45 | the first delete-while-iterating pass leaves exactly the attempt records of `Sweep` |
| LoginGuard.Guard.SweepBlocks | backend/middleware/security.js:47-51 | the second pass leaves exactly the block records of `Sweep` |
| LoginGuard.Guard.LoginRateLimit | backend/middleware/security.js:132-173 | the response, the new maps and the limiters consulted are `Gate`'s |
| TokenCheck.BearerToken | backend/middleware/security.js:207-215 | a token exists iff the header is present and starts with `Bearer `, and the header is then exactly `Bearer ` plus the token |
| TokenCheck.VerifyToken | backend/middleware/security.js:203-246 | no bearer header gives 401 before verification; verified claims pass; `TokenExpiredError` and `JsonWebTokenError` give 401; any other error gives 500 |
| TokenCheck.TokenIsSuffix | backend/middleware/security.js:215-219 | the verifier sees exactly the text after the 7-character prefix |
| TokenCheck.VerifyAdmin | backend/middleware/security.js:251-260 | passes iff there is a user whose role is exactly `admin` |
| ProductModel.MeasuredLength | backend/models/Product.js:37-41 | the length the `len` validator measures is at most the string length, and equal to it without presentation selectors |
| ProductModel.IsUrl | backend/models/Product.js:81 | true iff the value starts with `http://` or `https://` followed by one character other than a line terminator |
| ProductModel.IsBase64 | backend/models/Product.js:82 | true iff the value starts with `data:image/`, then at least one non-terminator character, then `;base64,` |
| ProductModel.ImageOk | backend/models/Product.js:78-88 | a missing, empty or all-white-space image passes; any other passes iff it is a URL or base64 image |
| ProductModel.Violations | backend/models/Product.js:11-101 | a field is listed iff it fails its validator; no field is listed twice |
| ProductModel.ValidIffNoViolations | backend/models/Product.js:11-101 | a row is valid iff it has no violations, iff every field passes |
| ProductModel.GetCategories | backend/models/Product.js:121-129 | exactly five entries with distinct keys, each among the twelve the validator accepts |
| CategoryModel.Column | backend/models/Category.js:36 | an absent attribute takes the default; an explicit `null` stays `NULL` |
| CategoryModel.WithDefaults | backend/models/Category.js:33-53 | icon `fas fa-tag`, color `#666666` and isActive true fill absent attributes, and an absent key or name stays NULL; every given value is kept, and an explicit `null` stays NULL rather than taking the default |
| CategoryModel.Violations | backend/models/Category.js:11-53 | a field is listed iff it fails: key non-blank and lower-case; name non-blank; color `NULL` or `#` and six hex digits; isActive not null |
| CategoryModel.DefaultsValid | backend/models/Category.js:41-47 | the default color passes the color rule, and a row of defaults is valid iff its key and name are |
| CategoryModel.HexColorLower | backend/models/Category.js:44 | the color rule ignores case |
| ImageUrl.ApiBase | frontend_new/src/utils/constants.ts:80 | the environment value unless missing or empty, else `http://localhost:3001` |
| ImageUrl.GetImageUrl | frontend_new/src/utils/constants.ts:86-97 | missing or empty gives the default image; `http…` and `data:image…` are returned as is; anything else gets base + `/uploads/` + path |
| ImageUrl.ResultAbsolute | frontend_new/src/utils/constants.ts:86-97 | with a base starting `http` every result starts with `http` or `data:image` |
| ImageUrl.Idempotent | frontend_new/src/utils/constants.ts:86-97 | with such a base, applying the helper to its own result changes nothing |
| ImageUrl.DefaultImageIsHttp | frontend_new/src/utils/constants.ts:83 | the default image address starts with `http` |
| ImageUrl.DefaultBaseIsHttp | frontend_new/src/utils/constants.ts:80 | the default base starts with `http`, so `ResultAbsolute` applies to it |
| ProductsApi.OrderFor | backend/api/routes/products.js:14-54 | the five sort names map to their `ORDER BY`; a missing or unknown one keeps `createdAt DESC` |
| ProductsApi.Window | backend/api/routes/products.js:56-61 | `LIMIT/OFFSET`: at most `limit` rows, starting at `offset`, in order; empty past the end |
| ProductsApi.List | backend/api/routes/products.js:9-74 | limit 50 and offset 0 by default; total counts the matching rows; `hasMore` iff `total > offset + limit`; the page is exactly the `LIMIT`/`OFFSET` window of the matching rows in table order |
| ProductsApi.CountIsFilterLength | backend/api/routes/products.js:63 | `count` with the same `WHERE` is the number of rows `findAll` would match without a limit |
| ProductsApi.HasMoreIsExact | backend/api/routes/products.js:72 | `hasMore` implies a full page; otherwise the page reaches the last matching row |
| ProductsApi.MissingFields | backend/api/routes/products.js:121-122 | lists each of name, category and description iff it is falsy, in that order |
| ProductsApi.NullIfFalsy | backend/api/routes/products.js:133-138 | a missing, `null` or 0 value becomes `null`; anything else is kept |
| ProductsApi.CreateRecord | backend/api/routes/products.js:133-140 | the created row carries the body's values: each text column is the given string, or NULL when absent or `null`; price and stock are the body's values with a falsy one sent as NULL, so never 0; with no missing field the required columns are present |
| ProductsApi.Merge | backend/api/routes/products.js:186-193 | an absent text column keeps its value; a given one is written; price and stock are always written, through `NullIfFalsy` |
| ProductsApi.UnwrittenKeepsVerdict | backend/api/routes/products.js:193 | a column the update does not write keeps its validator verdict |
| ProductsApi.WrittenColumnsSuffice | backend/api/routes/products.js:193 | on a valid row, validating the whole merged row is the same as validating the written columns |
| ProductsApi.Status | backend/api/routes/products.js:93-98 | 404 iff not found; 400 iff missing fields or validation errors; 201 iff created |
| ProductsApi.Store.constructor | backend/models/Product.js:6-10 | an empty table whose auto-increment id starts at 1 |
| ProductsApi.Store.Get | backend/api/routes/products.js:87-103 | 404 iff the id is not stored, else that row |
| ProductsApi.Store.Create | backend/api/routes/products.js:116-168 | missing fields give 400 and change nothing; validator failures give 400 and change nothing; otherwise 201 and the row is inserted under a fresh id |
| ProductsApi.Store.Update | backend/api/routes/products.js:171-221 | unknown id gives 404 and changes nothing; an invalid merge gives 400 and changes nothing; otherwise the merged row replaces the old one |
| ProductsApi.Store.Delete | backend/api/routes/products.js:224-238 | unknown id gives 404 and changes nothing; otherwise exactly that row is removed |
| Sanitize.RemoveTags | frontend/assets/js/components/productManager.js:125 | `/<[^>]*>/g` removal leaves no `<` with a later `>`, adds no character, and changes nothing without `<` |
| Sanitize.RemoveChars | frontend/assets/js/components/productManager.js:137-140 | removing a character class keeps exactly the other characters |
| Sanitize.Meaningful | frontend/assets/js/components/productManager.js:147-149 | text shorter than 2 or without a letter or digit becomes `''`; anything else is kept |
| Sanitize.StripMarkup | frontend/assets/js/components/productManager.js:123-141 | the markup branch leaves none of `< > " '` |
| Sanitize.ForceCleanText | frontend/assets/js/components/productManager.js:116-152 | falsy input gives `''`; every output is trimmed and single-spaced, and is `''` or at least 2 characters with a letter or digit; the markup branch leaves no `< > " '` |
| Sanitize.ForceCleanKeepsPlainText | frontend/assets/js/components/productManager.js:116-152 | already clean plain text passes through unchanged |
| Sanitize.SquashKeepsNoMarkup | frontend/assets/js/components/productManager.js:144 | collapsing white space brings in no markup character |
| Sanitize.CleanHtmlAttributes | frontend/assets/js/components/productManager.js:74-100 | falsy input gives `''`; every output satisfies the same cleanliness rule |
| Sanitize.CleanProduct | frontend/assets/js/components/productManager.js:102-113 | a copy with the same keys; only string fields are cleaned, the others are kept |
| ProductsPage.Normalize | frontend/assets/js/products.js:46-59 | the id is copied; each falsy field takes its default: `Ürün`, `''`, no-description text, 0, `genel`, `''`, placeholder, `[]`, 0 |
| ProductsPage.NormalizeIdempotent | frontend/assets/js/products.js:46-59 | normalising a normalised product changes nothing |
| ProductsPage.ByCategoryFilters | frontend/assets/js/products.js:97-99 | the category step is no filter for `''` and `all`, else exact category equality |
| ProductsPage.ByBrandFilters | frontend/assets/js/products.js:102-105 | the brand step keeps exactly the products whose lower-cased brand contains the lower-cased brand |
| ProductsPage.BySearchFilters | frontend/assets/js/products.js:108-115 | the search step keeps a product iff name, description or some feature contains the term, ignoring case |
| ProductsPage.FilteredIsOneFilter | frontend/assets/js/products.js:94-115 | the three successive filters are one filter by their conjunction |
| ProductsPage.FilteredSpec | frontend/assets/js/products.js:94-115 | the filtered list is a subsequence of the catalog holding exactly the products that pass every active filter |
| ProductsPage.Arrange | frontend/assets/js/products.js:118-132 | whatever the sort, the result is a permutation of its input |
| ProductsPage.PriceSortsOrder | frontend/assets/js/products.js:120-125 | `price-low` gives non-decreasing and `price-high` non-increasing prices |
| ProductsPage.TotalPages | frontend/assets/js/products.js:136 | `max(1, ceil(n / 15))`: the least page count of at least 1 that holds `n` items |
| ProductsPage.ClampPage | frontend/assets/js/products.js:137-138 | the page ends up in `[1, totalPages]` and is kept when already there |
| ProductsPage.GoToPageClamp | frontend/assets/js/products.js:564 | `goToPage`'s clamp agrees with `applyFilters`' one |
| ProductsPage.PageOf | frontend/assets/js/products.js:140-142 | a page holds at most 15 products |
| ProductsPage.PagesUpToPrefix | frontend/assets/js/products.js:140-142 | pages 1..k together are the first `15k` products |
| ProductsPage.PagesCoverListing | frontend/assets/js/products.js:136-142 | pages 1..totalPages together are the whole listing, and no valid page of a non-empty listing is empty |
| ProductsPage.PageWindow | frontend/assets/js/products.js:164-170 | the page buttons run consecutively from `max(1, p-2)` to `min(total, p+2)`, hold the current page and number at most 5 |
| ProductsPage.Pagination | frontend/assets/js/products.js:154-174 | no controls for a single page; « and » point one page back and ahead and are disabled on the first and last page |
| ProductsPage.TakeWords | frontend/assets/js/products.js:610 | `slice(0, limit)` on the words, including a negative limit counted from the end |
| ProductsPage.TruncateDescription | frontend/assets/js/products.js:602-612 | empty text gives the placeholder; text within the limit is returned unchanged; longer text gives its first `wordLimit` words joined by spaces plus `...` |
| ProductsPage.TruncatedWords | frontend/assets/js/products.js:605-610 | a truncated description ends in `...` and splits back into exactly the first `wordLimit` words |
| ProductsPage.Page.constructor | frontend/assets/js/products.js:1-14 | page 1 of 1, no products, category `all`, no brand, search or sort |
| ProductsPage.Page.LoadProducts | frontend/assets/js/products.js:43-59 | the products are the normalised rows of `data.data || []` |
| ProductsPage.Page.ApplyFilters | frontend/assets/js/products.js:93-147 | the listing is the filtered and sorted catalog; the page is clamped; the shown page is that page of the listing |
| ProductsPage.Page.FilterByCategory | frontend/assets/js/products.js:492-497 | category `category || 'all'`, page 1, filters re-applied |
| ProductsPage.Page.FilterByBrand | frontend/assets/js/products.js:499-503 | brand `brand || null`, page 1, filters re-applied |
| ProductsPage.Page.SearchProducts | frontend/assets/js/products.js:548-553 | the search is the trimmed term, page 1, filters re-applied |
| ProductsPage.Page.SortProducts | frontend/assets/js/products.js:555-560 | sort `value || null`, page 1, filters re-applied |
| ProductsPage.Page.GoToPage | frontend/assets/js/products.js:562-567 | a non-number changes nothing; otherwise the page is clamped into `[1, totalPages]` and the filters re-applied |
| ProductManager.Normalize | frontend/assets/js/components/productManager.js:42-55 | the id is copied, falsy fields take their defaults, and `inStock` is `stock > 0` |
| ProductManager.InStockIffPositive | frontend/assets/js/components/productManager.js:52-53 | after normalisation a product is in stock iff its stock count is positive |
| ProductManager.Arrange | frontend/assets/js/components/productManager.js:216-228 | every sort branch returns a permutation of its input |
| ProductManager.ByCategoryKeeps | frontend/assets/js/components/productManager.js:200-202 | no category filter for `all`, else exact equality |
| ProductManager.BySearchKeeps | frontend/assets/js/components/productManager.js:205-210 | a non-empty term keeps exactly the products whose lower-cased name or description contains it |
| ProductManager.ShownSpec | frontend/assets/js/components/productManager.js:196-232 | the shown products are exactly the catalog products that pass category, search and `price <= max`, each as often as in the catalog |
| ProductManager.ShownOrder | frontend/assets/js/components/productManager.js:216-228 | the default order is ascending id; `price-low` and `price-high` are monotone in price |
| ProductManager.GetCategoryName | frontend/assets/js/components/productManager.js:323-325 | the five known keys map to their names, anything else to `Ürün` |
| ProductManager.Manager.constructor | frontend/assets/js/components/productManager.js:4-9 | category `all`, price limit 300, sort `default`, empty search and lists |
| ProductManager.Manager.LoadFromBackend | frontend/assets/js/components/productManager.js:39-55 | the products are the normalised rows of `data.data || []` |
| ProductManager.Manager.LoadProducts | frontend/assets/js/components/productManager.js:196-232 | the shown list is `Shown` of the current state |
| ProductManager.Manager.SetSearch | frontend/assets/js/components/productManager.js:169-172 | the term is stored lower-cased and the list recomputed |
| ProductManager.Manager.SetPriceRange | frontend/assets/js/components/productManager.js:176-182 | the price limit is stored and the list recomputed |
| ProductManager.Manager.SetSort | frontend/assets/js/components/productManager.js:186-191 | the sort is stored and the list recomputed |
| ProductManager.Manager.FilterByCategory | frontend/assets/js/components/productManager.js:351-371 | the category is stored and the list recomputed |
| ProductManager.Manager.GetProduct | frontend/assets/js/components/productManager.js:373-375 | a product is returned iff one has the id, and then the first such |
| ProductManager.Manager.GetCategoryCount | frontend/assets/js/components/productManager.js:378-380 | the number of catalog positions holding that category |
| ProductManager.Manager.GetInStockProducts | frontend/assets/js/components/productManager.js:383-385 | exactly the in-stock products, in catalog order |
| ProductManager.Manager.GetProductsByPriceRange | frontend/assets/js/components/productManager.js:388-390 | exactly the products priced in `[min, max]`, both ends included, in catalog order |
| ProductDetail.Normalize | frontend/deployment-files/assets/js/product-detail.js:47-59 | the id is copied; falsy fields take the page's defaults, the three default features included |
| ProductDetail.NormalizeDefaults | frontend/deployment-files/assets/js/product-detail.js:47-59 | normalising is idempotent, and a row with no fields gets exactly the listed defaults |
| ProductDetail.GetCategoryName | frontend/deployment-files/assets/js/product-detail.js:329-338 | the five known keys map to their names, anything else to the key itself |
| ProductDetail.RelatedProducts | frontend/deployment-files/assets/js/product-detail.js:232-234 | the first at most 4 products of the same category and another id, in catalog order; fewer only if there are fewer |
| ProductDetail.AddFavorite | frontend/deployment-files/assets/js/product-detail.js:381-386 | appended only when no favourite has the id; distinct ids stay distinct; afterwards the id is a favourite |
| ProductDetail.Page.constructor | frontend/deployment-files/assets/js/product-detail.js:1-5 | no products and no current product; the favourites are the saved ones |
| ProductDetail.Page.LoadProducts | frontend/deployment-files/assets/js/product-detail.js:44-59 | the products are the normalised rows of `data.data || []` |
| ProductDetail.Page.LoadProductDetail | frontend/deployment-files/assets/js/product-detail.js:170-181 | the current product is the first with exactly that id, with its related products; none gives the not-found page |
| ProductDetail.Page.Initialize | frontend/deployment-files/assets/js/product-detail.js:17-33 | a missing, NaN or 0 id gives the not-found page; any other is looked up |
| ProductDetail.Page.AddToFavorites | frontend/deployment-files/assets/js/product-detail.js:380-386 | with nothing shown nothing changes; else the favourites are `AddFavorite`'s, reported as added iff the id was new |
| AdminPanel.DataOf | frontend/assets/admin/admin.js:624-633 | name and description trimmed; empty price 0; unparsable stock 0; empty brand `null`; blank image `null` |
| AdminPanel.Validate | frontend/assets/admin/admin.js:638-663 | the first failing rule in the form's order: empty name, no category, empty description, negative price, negative stock; none iff all pass |
| AdminPanel.MaxId | frontend/assets/admin/admin.js:684 | `Math.max(...ids, 0)`: at least 0, at least every id, and 0 or one of the ids |
| AdminPanel.LooseEqualsOwnId | frontend/assets/admin/admin.js:669 | an id written into the edit field is found again by `==` |
| AdminPanel.FindIndex | frontend/assets/admin/admin.js:669 | the first position whose id loosely equals the edit id, or −1 iff there is none |
| AdminPanel.ImageOr | frontend/assets/admin/admin.js:672-675 | a missing image becomes the panel's placeholder |
| AdminPanel.Merge | frontend/assets/admin/admin.js:676 | the form data over the old entry; id and features survive; the image is the given one or the placeholder |
| AdminPanel.NewProduct | frontend/assets/admin/admin.js:685-689 | the new id, the form data, no features, the image or the placeholder |
| AdminPanel.Saved | frontend/assets/admin/admin.js:597-702 | rejected data changes nothing; adding appends one product with id `max + 1`; editing merges at the first loosely matching index and changes nothing else; no match changes nothing |
| AdminPanel.AddTo | frontend/assets/admin/admin.js:684-690 | the list grows by exactly one at the end, with the next id |
| AdminPanel.EditIn | frontend/assets/admin/admin.js:669-681 | the entry at the index is merged, the others and the length are kept |
| AdminPanel.FilterAsWritten | frontend/assets/admin/admin.js:468-472 | as written, the filter throws iff some product misses name and description and has no features; else it keeps the hits |
| AdminPanel.SearchAsWritten | frontend/assets/admin/admin.js:462-475 | a blank query shows everything; otherwise the filter as written |
| AdminPanel.SearchThrowsOnAddedProduct | frontend/assets/admin/admin.js:468-472 | a product added in the panel has no features, so a query missing its name and description throws |
| AdminPanel.Search | frontend/assets/admin/admin.js:462-475 | a blank query shows everything; otherwise exactly the products whose name, description or some feature contains the query, ignoring case, in order |
| AdminPanel.FilterByCategory | frontend/assets/admin/admin.js:477-485 | an empty category shows everything, else exactly the products of that category |
| AdminPanel.CategoryCount | frontend/assets/admin/admin.js:1089 | the number of products with that category key |
| AdminPanel.CategoryCounts | frontend/assets/admin/admin.js:1085-1103 | one count per known category, each the number of products with that key |
| AdminPanel.MergeCategories | frontend/assets/admin/admin.js:1146-1148 | imported keys win, every other key keeps its entry; nothing imported changes nothing |
| AdminPanel.Panel.constructor | frontend/assets/admin/admin.js:6-24 | no products, logged out, the twelve initial categories |
| AdminPanel.Panel.LoadFromBackend | frontend/assets/admin/admin.js:373-391 | the products are `data.data || []` |
| AdminPanel.Panel.Login | frontend/assets/admin/admin.js:174-185 | succeeds iff the password is exactly `hakgida2024`; only success logs in |
| AdminPanel.Panel.Logout | frontend/assets/admin/admin.js:187-191 | always logs out |
| AdminPanel.Panel.SaveProduct | frontend/assets/admin/admin.js:597-702 | the products and the outcome are `Saved` of the form data |
| AdminPanel.Panel.Store | frontend/assets/admin/admin.js:597-702 | once the form is read, the products and the outcome are `Saved` of that data: rejected data changes nothing, an add appends, an edit merges in place |
| AdminPanel.Panel.DeleteProduct | frontend/assets/admin/admin.js:833-852 | only a known, confirmed product that the backend deleted is removed, with every product carrying its id; otherwise nothing changes |
| AdminPanel.Panel.Import | frontend/assets/admin/admin.js:1145-1148 | products are replaced and categories merged, imported keys winning |
| AdminPanel.Panel.SearchProducts | frontend/assets/admin/admin.js:462-475 | the table shows the corrected `Search` |
| AdminPanel.Panel.FilterProducts | frontend/assets/admin/admin.js:477-485 | the table shows `FilterByCategory` |
| AdminPanel.AddIsFresh | frontend/assets/admin/admin.js:684-690 | with distinct ids before, the ids stay distinct and the new one exceeds every old one |
| AdminPanel.DeleteRemovesAll | frontend/assets/admin/admin.js:846 | no product with the id is left, and every other product stays, in order |
| CartManager.IndexOfId | frontend/assets/js/components/cartManager.js:24 | the first item with the id, or −1 iff there is none |
| CartManager.AfterAdd | frontend/assets/js/components/cartManager.js:23-49 | an item already in the cart gains the quantity and nothing else changes; a new id is appended only for an existing in-stock catalog product |
| CartManager.AddCount | frontend/assets/js/components/cartManager.js:23-49 | the item count rises by exactly the quantity when the add takes effect, and otherwise not at all |
| CartManager.AddKeepsIdsDistinct | frontend/assets/js/components/cartManager.js:23-49 | adding never gives two items the same id, when each add completes before the next starts |
| CartManager.AddTotal | frontend/assets/js/components/cartManager.js:23-49 | the cart total rises by exactly price × quantity when the add takes effect, and otherwise not at all |
| CartManager.AfterRemove | frontend/assets/js/components/cartManager.js:52-56 | every item with the id goes, the others stay in order |
| CartManager.RemoveTotals | frontend/assets/js/components/cartManager.js:52-56 | removing takes away exactly the quantities and subtotals of the removed items |
| CartManager.Cart.constructor | frontend/assets/js/components/cartManager.js:170-173 | the saved cart, or an empty one |
| CartManager.Cart.AddToCart | frontend/assets/js/components/cartManager.js:23-49 | always reports success; the cart becomes `AfterAdd` of the old one |
| CartManager.Cart.RemoveFromCart | frontend/assets/js/components/cartManager.js:52-56 | the cart becomes `AfterRemove` of the old one |
| CartManager.Cart.ClearCart | frontend/assets/js/components/cartManager.js:59-63 | the cart is empty |
| CartManager.Cart.Checkout | frontend/assets/js/components/cartManager.js:148-162 | nothing happens on an empty cart; otherwise the order total is the sum of price × quantity and the cart is emptied |
| CartManager.Cart.GetTotal | frontend/assets/js/components/cartManager.js:176-178 | the sum of price × quantity over the cart, which `AddTotal`, `RemoveTotals` and `Checkout` track; 0 for an empty cart, and never negative for non-negative prices and quantities |
| CartManager.Cart.GetItemCount | frontend/assets/js/components/cartManager.js:181-183 | the sum of the quantities, which `AddCount` and `RemoveTotals` track; 0 for an empty cart, and never negative for non-negative quantities |
| Carousel.Forward | frontend/deployment-files/assets/js/main.js:105-108 | `(i + 1) % n` stays below `n`, steps by one and wraps from the last slide to 0 |
| Carousel.Back | frontend/deployment-files/assets/js/main.js:110-113 | `(i - 1 + n) % n` stays below `n`, steps back by one and wraps from 0 to the last slide |
| Carousel.SwipeOf | frontend/deployment-files/assets/js/main.js:74-85 | a touch moving left by more than 50 goes ahead, right by more than 50 goes back, anything shorter does nothing |
| Carousel.HeroCarousel.constructor | frontend/deployment-files/assets/js/main.js:18-32 | slide 0, playing; a timer runs iff there are slides |
| Carousel.HeroCarousel.ShowSlide | frontend/deployment-files/assets/js/main.js:88-103 | the current slide is the index |
| Carousel.HeroCarousel.NextSlide | frontend/deployment-files/assets/js/main.js:105-108 | the current slide becomes `Forward` of the old one |
| Carousel.HeroCarousel.PrevSlide | frontend/deployment-files/assets/js/main.js:110-113 | the current slide becomes `Back` of the old one |
| Carousel.HeroCarousel.ClearInterval | frontend/deployment-files/assets/js/main.js:157-162 | the held timer stops, `interval` is null and no timer runs |
| Carousel.HeroCarousel.StartAutoPlayAsWritten | frontend/deployment-files/assets/js/main.js:120-128 | as written, a new timer is added and held while the previously held one keeps running |
| Carousel.HeroCarousel.StartAutoPlay | frontend/deployment-files/assets/js/main.js:120-128 | corrected: while playing exactly one timer runs, the new one; paused changes nothing |
| Carousel.HeroCarousel.ResumeAutoPlayAsWritten | frontend/deployment-files/assets/js/main.js:135-139 | as written, resuming while playing adds a timer to those running |
| Carousel.HeroCarousel.ResumeAutoPlay | frontend/deployment-files/assets/js/main.js:135-139 | keeps at most one timer, and one runs iff playing |
| Carousel.HeroCarousel.RestartAutoPlay | frontend/deployment-files/assets/js/main.js:141-146 | keeps at most one timer, and one runs iff playing |
| Carousel.HeroCarousel.GoToSlide | frontend/deployment-files/assets/js/main.js:115-118 | the current slide is the index and the timer is restarted |
| Carousel.HeroCarousel.ToggleAutoPlay | frontend/deployment-files/assets/js/main.js:148-155 | `isPlaying` flips; playing starts a timer, pausing stops every timer |
| Carousel.AutoPlayLeak | frontend/deployment-files/assets/js/main.js:58-60 | hover, an indicator click and leaving, as written, leave two timers running |
| Carousel.AutoPlaySingle | frontend/deployment-files/assets/js/main.js:58-60 | the same events with the corrected start leave one timer |
| Carousel.PrevIndex | frontend/deployment-files/assets/js/main.js:313-318 | one step back, and from the first item to `totalItems - 1` |
| Carousel.PartnershipsCarousel.constructor | frontend/deployment-files/assets/js/main.js:202-209 | index, width and item count 0, not animating or dragging |
| Carousel.PartnershipsCarousel.CalculateDimensions | frontend/deployment-files/assets/js/main.js:234-255 | no items changes nothing; else `totalItems = floor(items / 2)` and the width falls back to `140 + margin` when not positive |
| Carousel.PartnershipsCarousel.GoToNext | frontend/deployment-files/assets/js/main.js:267-305 | a no-op while animating or with width 0; else the index rises by one and a wrap is scheduled iff it reached `totalItems` |
| Carousel.PartnershipsCarousel.GoToPrev | frontend/deployment-files/assets/js/main.js:307-342 | a no-op while animating or with width 0; else the index becomes `PrevIndex` of the old one |
| Carousel.PartnershipsCarousel.WrapToStart | frontend/deployment-files/assets/js/main.js:285-291 | the scheduled wrap puts the index back to 0 |
| Carousel.PartnershipsCarousel.AnimationDone | frontend/deployment-files/assets/js/main.js:301-304 | the strip accepts moves again |
| Carousel.PartnershipsCarousel.StartDrag | frontend/deployment-files/assets/js/main.js:364-375 | a non-main mouse button changes nothing; else a drag starts at the pointer |
| Carousel.PartnershipsCarousel.Drag | frontend/deployment-files/assets/js/main.js:388-395 | the pointer is followed only during a drag |
| Carousel.PartnershipsCarousel.EndDrag | frontend/deployment-files/assets/js/main.js:404-434 | no drag changes nothing; a drag over 50 to the right goes back and to the left goes ahead, through the move guards; 50 or less leaves the index alone |
| ModalManager.GetCategoryName | frontend/deployment-files/assets/js/components/modalManager.js:156-164 | the four known keys map to their names, anything else to `Ürün` |
| ModalManager.StockLabel | frontend/deployment-files/assets/js/components/modalManager.js:70-71 | `Stok: <n> adet` for a product in stock, else `Stokta yok` |
| ModalManager.StockLabelReadsBack | frontend/deployment-files/assets/js/components/modalManager.js:71 | the number in a stock line reads back as the product's stock, and the line is never the out-of-stock text |
| ModalManager.Populate | frontend/deployment-files/assets/js/components/modalManager.js:64-95 | the button is disabled and the out-of-stock style set iff the product is not in stock; quantity 1; the shown fields are the product's |
| ModalManager.ChangeQuantity | frontend/deployment-files/assets/js/components/modalManager.js:168-179 | a number stays in `[1, 10]` and equals `current + change` when that is in range, clamped otherwise; NaN stays NaN (the home page's copy in `main.js` behaves the same) |
| HeroCarouselView.NextSlide | frontend_new/src/components/home/HeroCarousel.tsx:48-50 | four slides; the next index is one more, and 0 after the last |
| HeroCarouselView.PrevSlide | frontend_new/src/components/home/HeroCarousel.tsx:52-54 | the previous index is one less, and 3 before the first |
| HeroCarouselView.GoToSlide | frontend_new/src/components/home/HeroCarousel.tsx:56-58 | the new index is the index given, which a step back and forward returns to |
| HeroCarouselView.ArrowsUndo | frontend_new/src/components/home/HeroCarousel.tsx:48-54 | each arrow undoes the other on every slide |
| HeroCarouselView.Commit | frontend_new/src/components/home/HeroCarousel.tsx:60-65 | the effect re-runs only when `isPaused` changed; its cleanup clears the previous interval before a new one starts, which keeps every live interval accounted for |
| HeroCarouselView.Unmount | frontend_new/src/components/home/HeroCarousel.tsx:60-65 | unmounting runs the pending cleanup and leaves no interval live |
| HeroCarouselView.RendersTracked | frontend_new/src/components/home/HeroCarousel.tsx:60-65 | after any run of renders from mounting, the live intervals are those the pending cleanup will clear |
| HeroCarouselView.RendersKeepOneTimer | frontend_new/src/components/home/HeroCarousel.tsx:60-65 | however `isPaused` toggles, at most one interval is live, one is live exactly when the last render was unpaused, and none survives unmounting |

## Left out

- I/O is not modelled. This covers `fetch` and `axios`, `localStorage`, `FileReader`, uploads, and the Sequelize `findAll`/`count`/`create`/`update`/`destroy` calls with their database configuration. Query results, saved carts and favourites, and form values are parameters.
- Timers are not modelled as scheduling. A callback the browser runs later is a method that the caller invokes: `WrapToStart`, `AnimationDone`, and `NextSlide` as the autoplay tick. The hourly sweep is `Cleanup(now)`.
- The `rate-limiter-flexible` limiters are library code. Each limiter's answer for the request is an input: `Allow`, `Reject(msBeforeNext)` or `Fault`.
- `jwt.verify`, `jwt.sign` and bcrypt are foreign cryptography. The verifier is a function parameter.
- `apiRateLimit`, the security headers, CORS, the global error handler and the Express route order are framework plumbing.
- Rendering is not modelled: the DOM, the HTML templates, CSS classes, the progress bar, scroll effects, and the partner-logo click navigation. The modal's `addToCart` with its dynamic import is also left out.
- Floating-point and locale formatting are left out: `toFixed`, `formatPrice`, `Intl.NumberFormat`, `parseFloat` in `toJSON`, and the `DECIMAL(10,2)` price column. Prices are integers.
- `localeCompare` collation is left out. The `name` sort uses a comparator parameter, and it is proved only to be a permutation.
- Sanitize.StripMarkup: the three attribute-stripping regular expressions are a function parameter. The quote and angle-bracket removal, whitespace collapse and length rules are modelled exactly.
- Sanitize.ForceCleanText, Sanitize.CleanHtmlAttributes: the `String(text)` conversion of a truthy non-string input (`frontend/assets/js/products.js` lines 193 and 221) is not modelled. The input is a possibly missing string, and `CleanProduct` hands them only string fields.
- Text.Lower: lower-cases ASCII and Ç Ö Ü Ğ Ş I only. Other Unicode case mappings are not modelled, including the two-character lowering of İ.
- Numbers.IntNumeral: `Number(...)` is modelled on optionally signed decimal numerals, the empty string and white space only. Hexadecimal, exponents, `Infinity` and fractions are not modelled.
- ProductsApi.List: the table is given already in the selected `ORDER BY` order. The listing reports that order rather than sorting, `NULL` ordering is not modelled, and `LIKE` is a case-sensitive substring test without `%`/`_` wildcards inside the term.
- ProductsApi.List: `limit` and `offset` are taken after `parseInt` as natural numbers. A negative or malformed query value is not modelled.
- ProductsApi.Store.Update: the merged row is validated as a whole, whereas Sequelize validates the changed attributes. `ProductsApi.WrittenColumnsSuffice` proves the two agree whenever the stored row was valid, and `Store.Valid` keeps every stored row valid.
- ProductDetail.Page.constructor: the saved favourites are taken to be ones this page wrote, so their ids are distinct. The source parses whatever array `localStorage` holds at each call (`frontend/deployment-files/assets/js/product-detail.js` line 381), and its only writer de-duplicates (line 383); a hand-edited list with repeated ids is not modelled.
- ProductsApi.CreateRecord: request bodies are typed. A string price such as `""` or `"0"` is not modelled, and neither are the `STRING(n)` column lengths.
- ProductModel.Violations: Sequelize's `allowNull: false` check on a missing column is reported as a failure of that column's rule.
- CartManager.Cart.AddToCart: the catalog import is asynchronous in the source, but here its result is applied in the same call. So two `addToCart(7)` calls made before the import resolves, for a product 7 not yet in the cart, both push an item with id 7 in the source; the model, and `AddKeepsIdsDistinct`, cover only adds that complete one after the other.
- CartManager.Cart.AddToCart: the catalog, which the source imports, is a parameter before the defaulted `quantity`.
- ProductManager.Manager.SetPriceRange: the slider's string value is taken as the integer it compares as.
- Carousel.PartnershipsCarousel.WrapToStart: the `if (this.track)` guards around the deferred steps are taken as true. The pause and resume of the strip's animation are not modelled.
- LoginGuard.Gate: the source reads the clock twice, once in `isIPBlocked` and once for `remainingMinutes`. The model uses one `now`.
- ProductDetail.Page.Initialize: the id arrives after `parseInt` of the URL parameter, with NaN as `None`.
- Lookups in the category-name tables ignore keys inherited from `Object.prototype`.
- `Product.findByCategory` and the admin panel's export, backup and autosave are left out: they are I/O.

## Findings

| source | as written | input that shows it | evidently intended | confidence | as-written member | corrected member |
|---|---|---|---|---|---|---|
| frontend/assets/admin/admin.js:468-472 | the search callback calls `product.features.some(...)` on every product whose name and description miss the query | a product added in the panel, which has no `features`, and the query `x` | a product without features has no feature hit, so the search shows the matching products | not executed | AdminPanel.SearchAsWritten, AdminPanel.SearchThrowsOnAddedProduct | AdminPanel.Search |
| frontend/deployment-files/assets/js/main.js:120-128 | `startAutoPlay` stores a new interval in `this.interval` without clearing the one already held | a 4-slide slider: the pointer enters (pause), an indicator is clicked (restart), and the pointer leaves (resume), leaving two intervals running | a single autoplay timer at any time | not executed | Carousel.HeroCarousel.StartAutoPlayAsWritten, Carousel.AutoPlayLeak | Carousel.HeroCarousel.StartAutoPlay, Carousel.AutoPlaySingle |
