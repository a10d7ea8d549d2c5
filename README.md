# La Espiga sales core and careplus user/OTP rules, in Dafny

This project models two codebases.

**La Espiga** is a bakery shop. The model covers:

- its sale engine (`SaleController`):
  - pricing a cart (`preview`);
  - the checkout transaction (`store`);
  - the sale listing (`index`);
  - the sale detail (`buildSaleResponse`);
  - the two row formatters;
- the `v_sale_items`, `v_sales` and `v_categories` SQL views;
- the browser cart kept in the `cart_items` cookie (`cart.ts`).

**careplus** is a clinic back end. The model covers:

- one-time login codes (`generate_otp`, `store_otp`, `verify_otp`, and the `POST /verify-otp` route);
- the role rules of `PUT /users/{id}` and `DELETE /users/{id}`.

Modules and their source files:

| module | file | models |
|---|---|---|
| `Wrappers` | `wrappers.dfy` | `Option`, `Result` |
| `Money` | `money.dfy` | amounts as exact reals; PHP `round` (half away from zero) as `R2` and `R4`; whole cents |
| `Schema` | `schema.dfy` | the rows of `products`, `salable_products`, `users`, `sales`, `sale_items`; the sale errors and their HTTP status codes |
| `Ordering` | `ordering.dfy` | sorting by a two-field key, for the `ORDER BY` clauses |
| `Pricing` | `pricing.dfy` | `preview`: tax rate resolution, line pricing, the summary |
| `Digits`, `PickupCode` | `digits.dfy`, `pickup_code.dfy` | the six-digit pickup code `str_pad(random_int(0, 999999), 6, '0', STR_PAD_LEFT)` |
| `SaleViews` | `sale_views.dfy` | `v_sale_items`, `v_sales`, `formatSaleRow`, `formatSaleItemRow`, the detail lookup, the listing |
| `Checkout` | `checkout.dfy` | `store`, as a specification function `Checkout`; class `SalesDatabase`, whose method `Store` walks the lines in a loop and commits or leaves the tables untouched |
| `Cart` | `cart.dfy` | the cart list operations; class `CartCookies`, holding the cookie |
| `Otp` | `otp.dfy` | the `verification_codes` table; class `VerificationCodes` with `StoreOtp` and `VerifyOtp` |
| `OtpRoute` | `verify_otp_route.dfy` | the route handler, where a failing Supabase call is a parameter |
| `Careplus` | `careplus.dfy` | the role hierarchy, the role lookups, and the tables the user routes touch (class `Directory`) |
| `UpdateUser` | `update_user.dfy` | the permission checks, the `update_data` dict, the single update |
| `DeleteUser` | `delete_user.dfy` | the permission checks and the deletion sequence, where failing calls are a parameter |
| `Categories` | `categories.dfy` | the slug `LOWER(REPLACE(name, ' ', '-'))` |

Inputs that come from the environment are parameters of the model:

- the random number of the pickup code;
- the six digit draws of `generate_otp`;
- the current time;
- whether a browser session is active;
- which Supabase calls raise.

In three places the code behaves differently from what a reader of the endpoints would expect. The model follows the code each time:

- **Unknown ids.**
  - One would expect an unknown salable product or user to be a "not found" error (404).
  - In the code, both are caught by the `exists:` validation rules of `preview` and `store`, so they answer 422 (`Schema.HttpStatus`, `Checkout.CheckoutValidationFirst`).
  - Only the `firstOrFail` on a locked product, and a missing sale, answer 404.
- **Reported totals.**
  - One would expect a sale's reported total to match what the checkout charged.
  - In the code, `v_sales` joins the salable product's CURRENT price, so a price change alters past sales (`SaleViews.PriceChangeIsRetroactive`).
  - It also sums unrounded line totals, so a sale's reported total can differ from the preview of the same cart (`SaleViews.SaleTotalCanDifferFromPreview`: 0.11 reported against 0.12 previewed).
  - Each line on its own does agree with the preview (`SaleViews.ItemAgreesWithPreview`).
- **Timeouts.** The transaction of `store` has no timeout or retry setting, and neither does the model.

## Model

| member | source | states |
|---|---|---|
| Money.R2NonNegative | Php/2-8-la-espiga/back/app/Http/Controllers/SaleController.php:83-85 | for x ≥ 0, PHP `round(x, 2)` is floor(100·x + 1/2)/100, and it is non-negative |
| Money.R2Negative | Php/2-8-la-espiga/back/app/Http/Controllers/SaleController.php:83-85 | rounding is half away from zero: round(x) == −round(−x) for negative x |
| Money.R2IsCents | Php/2-8-la-espiga/back/app/Http/Controllers/SaleController.php:83-85 | every rounded amount is a whole number of cents |
| Money.R2OfCents | Php/2-8-la-espiga/back/database/migrations/2025_12_12_000000_create_products_table.php:26 | an amount already in cents (a `decimal(10,2)` price) passes through rounding unchanged |
| Money.R2Idempotent | Php/2-8-la-espiga/back/app/Http/Controllers/SaleController.php:104-108 | rounding a rounded amount changes nothing |
| Money.R2Close | Php/2-8-la-espiga/back/app/Http/Controllers/SaleController.php:83-85 | a rounded non-negative amount is within half a cent of the exact one |
| Money.R2ShiftCents | Php/2-8-la-espiga/back/app/Http/Controllers/SaleController.php:85 | a whole number of cents passes through rounding: round(c + x) == c + round(x) |
| Schema.HttpStatus | Php/2-8-la-espiga/back/app/Http/Controllers/SaleController.php:145-157 | a sale error answers 404 exactly for a missing product row or a missing sale; every other error answers 422 |
| Ordering.SortBy | Php/2-8-la-espiga/back/app/Http/Controllers/SaleController.php:22-23 | the ordered rows are sorted by the key, are a permutation of the input and have the same length |
| Ordering.SortByMembers | Php/2-8-la-espiga/back/app/Http/Controllers/SaleController.php:205 | ordering keeps exactly the rows it is given |
| Pricing.DefaultRate | Php/2-8-la-espiga/back/app/Http/Controllers/SaleController.php:65 | the request rate is the given number; a missing or null rate is 0.18 |
| Pricing.LineRate | Php/2-8-la-espiga/back/app/Http/Controllers/SaleController.php:80 | a line with a `taxes` key uses its value, and a null value is 0; a line without the key uses the request rate |
| Pricing.PreviewLines | Php/2-8-la-espiga/back/app/Http/Controllers/SaleController.php:73-102 | succeeds exactly when every salable id resolves, else fails with `SalableNotFound` (no partial list); on success there is one priced line per input line, in input order |
| Pricing.Preview | Php/2-8-la-espiga/back/app/Http/Controllers/SaleController.php:55-114 | succeeds exactly when validation passes; one unknown id fails the whole call; on success the i-th output line prices the i-th input line with its resolved rate |
| Pricing.PriceLineInCents | Php/2-8-la-espiga/back/app/Http/Controllers/SaleController.php:82-85 | a line's subtotal, tax and total are whole cents, and total == subtotal + tax exactly |
| Pricing.PriceLineSubtotalExact | Php/2-8-la-espiga/back/app/Http/Controllers/SaleController.php:83 | for a price in cents the subtotal is exactly price·quantity |
| Pricing.PriceLineOnCents | Php/2-8-la-espiga/back/app/Http/Controllers/SaleController.php:82-85 | for a price in cents and non-negative quantity and rate: subtotal = price·qty, tax = round(subtotal·rate), total = round(price·qty·(1 + rate)) |
| Pricing.RoundOnceAtTheEnd | Php/2-8-la-espiga/back/app/Http/Controllers/SaleController.php:84-85 | on a subtotal in cents, rounding the tax and then the sum gives round(subtotal·(1 + rate)) |
| Pricing.PriceLineExample | Php/2-8-la-espiga/back/app/Http/Controllers/SaleController.php:82-85 | 48.00 × 2 at the default 0.18 is priced 96.00 / 17.28 / 113.28 |
| Pricing.SumsInCents | Php/2-8-la-espiga/back/app/Http/Controllers/SaleController.php:104-108 | sums of priced lines are in cents, and the sum of totals is the sum of subtotals plus the sum of taxes |
| Pricing.PreviewSummaryExact | Php/2-8-la-espiga/back/app/Http/Controllers/SaleController.php:104-108 | the summary's subtotal and taxes are the exact sums of the line amounts (the final round changes nothing), and its total is their sum |
| PickupCode.DecimalString | Php/2-8-la-espiga/back/app/Http/Controllers/SaleController.php:140 | `(string) $n` is a non-empty string of decimal digits |
| PickupCode.PadLeft | Php/2-8-la-espiga/back/app/Http/Controllers/SaleController.php:140 | `str_pad` with `STR_PAD_LEFT` keeps a long enough string as it is; otherwise the result has the width, ends with the string and starts with pad characters |
| PickupCode.ParseDecimalString | Php/2-8-la-espiga/back/app/Http/Controllers/SaleController.php:140 | parsing the decimal form of n gives n |
| PickupCode.CodeRoundTrip | Php/2-8-la-espiga/back/app/Http/Controllers/SaleController.php:140 | for n in [0, 999999] the code is 6 characters, all digits, and parsing it gives back n |
| SaleViews.SaleItemsView | Php/2-8-la-espiga/back/database/migrations/2025_12_12_201303_create_sales_view.php:16-29 | the inner join yields at most one row per stored item |
| SaleViews.SalesView | Php/2-8-la-espiga/back/database/migrations/2025_12_12_201303_create_sales_view.php:34-47 | the grouped view yields at most one row per sale |
| SaleViews.FindSale | Php/2-8-la-espiga/back/app/Http/Controllers/SaleController.php:179-183 | a found row is a `v_sales` row of that id whose user exists; none is found exactly when no row of that id has an existing user |
| SaleViews.Show | Php/2-8-la-espiga/back/app/Http/Controllers/SaleController.php:177-222 | answers "sale not found" (404) exactly when no `v_sales` row of the sale joins an existing user; otherwise the header is formatSaleRow of that row with the sale's counts, and the items belong to the sale and are ordered by item id |
| SaleViews.ShowItemsMember | Php/2-8-la-espiga/back/app/Http/Controllers/SaleController.php:188-207 | the items of a found sale are exactly its stored items whose salable product and product exist, each formatted by formatSaleItemRow from the current price |
| SaleViews.ClampLimit | Php/2-8-la-espiga/back/app/Http/Controllers/SaleController.php:16-17 | the limit is 200 when absent, else the requested value clamped to [1, 500] |
| SaleViews.Joined | Php/2-8-la-espiga/back/app/Http/Controllers/SaleController.php:19-27 | the joined rows are exactly the `v_sales` rows whose user exists and matches the filter, each paired with that user |
| SaleViews.ListingMember | Php/2-8-la-espiga/back/app/Http/Controllers/SaleController.php:19-27 | the ordered listing holds exactly the `v_sales` rows whose user exists and matches the filter, with their users |
| SaleViews.Index | Php/2-8-la-espiga/back/app/Http/Controllers/SaleController.php:14-48 | the response holds min(limit, number of matching sales) entries; the i-th is formatSaleRow of the i-th ordered row with its counts; entries are ordered by paid_at then id, both descending, and each is of the filtered user |
| SaleViews.IndexEntries | Php/2-8-la-espiga/back/app/Http/Controllers/SaleController.php:19-45 | every entry is formatSaleRow of a `v_sales` row whose user exists and matches the filter |
| SaleViews.IndexIsTopN | Php/2-8-la-espiga/back/app/Http/Controllers/SaleController.php:19-29 | every matching sale is listed, unless the page is full and every listed sale comes before it in paid_at DESC, id DESC |
| SaleViews.IndexIdsDistinct | Php/2-8-la-espiga/back/app/Http/Controllers/SaleController.php:19-29 | with `sales.id` a primary key, no sale is listed twice |
| SaleViews.RowsOfSaleMember | Php/2-8-la-espiga/back/database/migrations/2025_12_12_201303_create_sales_view.php:46 | a sale's view rows are exactly the item rows of that sale |
| SaleViews.ItemsOfMember | Php/2-8-la-espiga/back/app/Http/Controllers/SaleController.php:35-40 | the items grouped under a sale are exactly the stored items of that sale |
| SaleViews.SaleItemsViewMember | Php/2-8-la-espiga/back/database/migrations/2025_12_12_201303_create_sales_view.php:16-29 | every `v_sale_items` row is a stored item joined with the current row of its salable product |
| SaleViews.SaleItemsViewUsesCurrentPrice | Php/2-8-la-espiga/back/database/migrations/2025_12_12_201303_create_sales_view.php:22-29 | every stored item whose salable product exists is reported at that product's current price |
| SaleViews.SalesViewMember | Php/2-8-la-espiga/back/database/migrations/2025_12_12_201303_create_sales_view.php:41-47 | a `v_sales` row has at least one item row, and its subtotal and total are the sums of its item rows' unrounded amounts |
| SaleViews.SaleRowHasItems | Php/2-8-la-espiga/back/database/migrations/2025_12_12_201303_create_sales_view.php:46 | a sale in `v_sales` has at least one stored item |
| SaleViews.CountsOfSale | Php/2-8-la-espiga/back/app/Http/Controllers/SaleController.php:210-214 | for a sale with items, line_count is the number of its items, at least 1, and units_count is at least line_count |
| SaleViews.ShowWithoutItemsNotFound | Php/2-8-la-espiga/back/app/Http/Controllers/SaleController.php:184-186 | a sale without items has no `v_sales` row, so its detail is "sale not found" |
| SaleViews.ShowCounts | Php/2-8-la-espiga/back/app/Http/Controllers/SaleController.php:210-216 | a found sale's header carries its counts: at least one line, and at least one unit per line |
| SaleViews.IndexCounts | Php/2-8-la-espiga/back/app/Http/Controllers/SaleController.php:35-45 | every listed sale has items and carries counts: line_count is its number of items, units_count is the sum of their quantities, and units_count ≥ line_count ≥ 1 |
| SaleViews.ItemAgreesWithPreview | Php/2-8-la-espiga/back/database/migrations/2025_12_12_201303_create_sales_view.php:24-25 | for a price in cents and a non-negative rate, a reported item's subtotal, tax and total equal the preview's for that line |
| SaleViews.ItemReportIsConsistent | Php/2-8-la-espiga/back/app/Http/Controllers/SaleController.php:257-260 | a reported item's total is its reported subtotal plus its reported tax |
| SaleViews.PriceChangeIsRetroactive | Php/2-8-la-espiga/back/database/migrations/2025_12_12_201303_create_sales_view.php:23-29 | a new price for a salable product changes the reported subtotal of every past item of it |
| SaleViews.SaleRowWellPriced | Php/2-8-la-espiga/back/database/migrations/2025_12_12_201303_create_sales_view.php:41-42 | with non-negative prices, a sale's unrounded subtotal is in cents and non-negative, and its total is not below it |
| SaleViews.FormatSaleRowIsConsistent | Php/2-8-la-espiga/back/app/Http/Controllers/SaleController.php:234-236 | for such sums, the reported subtotal is the exact one and total == subtotal + tax_total |
| SaleViews.SaleReportIsConsistent | Php/2-8-la-espiga/back/app/Http/Controllers/SaleController.php:224-247 | a reported sale header's subtotal is the sum of its item subtotals, and its total is subtotal + tax_total |
| SaleViews.SaleTotalCanDifferFromPreview | Php/2-8-la-espiga/back/database/migrations/2025_12_12_201303_create_sales_view.php:41-42 | two lines of 0.05 at 10% are reported at 0.11 in total, while the preview prices each at 0.06 and sums them to 0.12 |
| Checkout.NewItems | Php/2-8-la-espiga/back/app/Http/Controllers/SaleController.php:161-166 | one sale item per line |
| Checkout.ApplyLinesErrExtends | Php/2-8-la-espiga/back/app/Http/Controllers/SaleController.php:143-169 | once a line fails, the later lines cannot change the outcome: the first failure is the error |
| Checkout.StockWalk | Php/2-8-la-espiga/back/app/Http/Controllers/SaleController.php:143-169 | with resolvable lines, the walk succeeds exactly when no product's total demand exceeds its stock; a failure is always "insufficient stock"; success lowers every product's stock by exactly its demand and keeps names and descriptions |
| Checkout.NewItemsAt | Php/2-8-la-espiga/back/app/Http/Controllers/SaleController.php:159-166 | the i-th created item has id first + i, the new sale, and the i-th line's salable product, quantity and resolved rate |
| Checkout.RepeatedLinesSeeEarlierDecrements | Php/2-8-la-espiga/back/app/Http/Controllers/SaleController.php:149-168 | with stock 5, two lines of 3 fail with "insufficient stock for Pan", though each alone fits; one line of 5 leaves stock 0 |
| Checkout.CheckoutSucceedsIff | Php/2-8-la-espiga/back/app/Http/Controllers/SaleController.php:135-172 | a validated checkout commits exactly when every product has stock for its total demand; otherwise it fails with "insufficient stock" |
| Checkout.CheckoutValidationFirst | Php/2-8-la-espiga/back/app/Http/Controllers/SaleController.php:118-125 | a request that fails validation is refused before any stock is read |
| Checkout.CheckoutStock | Php/2-8-la-espiga/back/app/Http/Controllers/SaleController.php:149-168 | a commit lowers each product's stock by its total demand, which never exceeds the stock; salable products and users are untouched |
| Checkout.CheckoutUnreferencedUnchanged | Php/2-8-la-espiga/back/app/Http/Controllers/SaleController.php:149-168 | a product no line refers to is unchanged |
| Checkout.CheckoutRecords | Php/2-8-la-espiga/back/app/Http/Controllers/SaleController.php:136-166 | a commit appends one PAID sale for the user, paid now, with the code, plus one item per line in order; existing rows are kept |
| Checkout.LineRateNonNegative | Php/2-8-la-espiga/back/app/Http/Controllers/SaleController.php:159 | a validated line's resolved tax rate is never negative |
| Checkout.CheckoutKeepsKeys | Php/2-8-la-espiga/back/database/migrations/2025_12_12_000003_create_sales_table.php:12-26 | a commit keeps every foreign key, positive quantities and non-negative rates, and all ids below the advanced counters |
| Checkout.CheckoutKeepsSaleIdsUnique | Php/2-8-la-espiga/back/database/migrations/2025_12_12_000003_create_sales_table.php:12 | a commit gives the new sale the counter's id, so `sales.id` stays a key |
| Checkout.CheckoutIsShown | Php/2-8-la-espiga/back/app/Http/Controllers/SaleController.php:174-186 | after a commit, the new sale's detail is found, so `store` never answers with the 404 |
| Checkout.SalesDatabase.WalkLines | Php/2-8-la-espiga/back/app/Http/Controllers/SaleController.php:143-169 | the loop's outcome is the specification walk `ApplyLines`; on success the rows it built are `NewItems` |
| Checkout.SalesDatabase.Store | Php/2-8-la-espiga/back/app/Http/Controllers/SaleController.php:116-175 | on failure it returns the error and the database is unchanged; on success the tables are the committed checkout, the counters advance, and the response is the new sale's detail |
| Cart.Trunc | Php/2-8-la-espiga/front/src/utils/cart.ts:65 | `Math.trunc` rounds toward zero |
| Cart.Max1 | Php/2-8-la-espiga/front/src/utils/cart.ts:65 | `Math.max(1, n)` is at least 1 and n, and is n when n ≥ 1 |
| Cart.ReadEntries | Php/2-8-la-espiga/front/src/utils/cart.ts:57-67 | filtering keeps at most the given entries |
| Cart.Encode | Php/2-8-la-espiga/front/src/utils/cart.ts:85 | `JSON.stringify` writes one object per line with its id, quantity and taxes |
| Cart.Persist | Php/2-8-la-espiga/front/src/utils/cart.ts:76-90 | the cookie is deleted exactly when the list is empty |
| Cart.IndexOf | Php/2-8-la-espiga/front/src/utils/cart.ts:111 | `find` gives the first line with the id, and finds none exactly when no line has it |
| Cart.Removed | Php/2-8-la-espiga/front/src/utils/cart.ts:141 | `filter` never adds lines |
| Cart.NormaliseAll | Php/2-8-la-espiga/front/src/utils/cart.ts:96-100 | one normalised line per input line, in order |
| Cart.ReadIsNormalised | Php/2-8-la-espiga/front/src/utils/cart.ts:63-67 | every line read has a quantity of at least 1 |
| Cart.ReadDropsMalformed | Php/2-8-la-espiga/front/src/utils/cart.ts:58-62 | non-objects, and entries without a numeric id or quantity, are dropped |
| Cart.ReadEntriesConcat | Php/2-8-la-espiga/front/src/utils/cart.ts:57-67 | reading works entry by entry, so kept lines stay in cookie order |
| Cart.ReadKeepsWellFormed | Php/2-8-la-espiga/front/src/utils/cart.ts:57-67 | well-formed entries are all kept, in order, each normalised |
| Cart.NormaliseWhole | Php/2-8-la-espiga/front/src/utils/cart.ts:65 | normalising a whole quantity ≥ 1 changes nothing |
| Cart.PersistRoundTrip | Php/2-8-la-espiga/front/src/utils/cart.ts:76-92 | reading back a persisted normalised list gives the same list |
| Cart.AddExisting | Php/2-8-la-espiga/front/src/utils/cart.ts:110-117 | adding an id already there adds no line: that line's quantity becomes max(1, old + q), its taxes change only when a number is given, and every other line is kept |
| Cart.AddNew | Php/2-8-la-espiga/front/src/utils/cart.ts:118-120 | adding a new id appends one line with quantity max(1, q) |
| Cart.AddKeepsNormalised | Php/2-8-la-espiga/front/src/utils/cart.ts:110-120 | adding keeps every quantity at least 1 |
| Cart.AddKeepsUnique | Php/2-8-la-espiga/front/src/utils/cart.ts:110-120 | adding keeps ids unique |
| Cart.RemovedMember | Php/2-8-la-espiga/front/src/utils/cart.ts:140-143 | after removal no line has the id, and every other line is kept |
| Cart.RemovedConcat | Php/2-8-la-espiga/front/src/utils/cart.ts:140-143 | removal works line by line, so the remaining lines keep their order |
| Cart.RemovedAbsent | Php/2-8-la-espiga/front/src/utils/cart.ts:140-143 | removing an absent id changes nothing |
| Cart.UpdatePresent | Php/2-8-la-espiga/front/src/utils/cart.ts:126-138 | on a present id, q ≤ 0 removes the line; otherwise its quantity becomes max(1, trunc(q)) and the other lines are untouched |
| Cart.UpdateKeepsInvariant | Php/2-8-la-espiga/front/src/utils/cart.ts:126-138 | updating keeps ids unique and quantities at least 1 |
| Cart.RemovedKeepsNormalised | Php/2-8-la-espiga/front/src/utils/cart.ts:140-143 | removal keeps quantities at least 1 |
| Cart.RemovedKeepsUnique | Php/2-8-la-espiga/front/src/utils/cart.ts:140-143 | removal keeps ids unique |
| Cart.CountAtLeastLines | Php/2-8-la-espiga/front/src/utils/cart.ts:149-151 | the sum of the quantities of a normalised cart is at least its number of lines |
| Cart.CartCookies.Items | Php/2-8-la-espiga/front/src/utils/cart.ts:92 | the lines read from the cookie all have quantity ≥ 1 |
| Cart.CartCookies.GetCartCount | Php/2-8-la-espiga/front/src/utils/cart.ts:149-151 | the count is at least the number of lines |
| Cart.CartCookies.SetCartItems | Php/2-8-la-espiga/front/src/utils/cart.ts:94-102 | the cart becomes the normalised inputs |
| Cart.CartCookies.AddItemToCart | Php/2-8-la-espiga/front/src/utils/cart.ts:104-124 | without a session it returns false and leaves the cookie alone; with one, it returns true and the cart becomes `Added` |
| Cart.CartCookies.UpdateCartQuantity | Php/2-8-la-espiga/front/src/utils/cart.ts:126-138 | an absent id leaves the cookie alone; otherwise the cart becomes `Updated` |
| Cart.CartCookies.RemoveItemFromCart | Php/2-8-la-espiga/front/src/utils/cart.ts:140-143 | the cart becomes the old lines without the id |
| Cart.CartCookies.ClearCart | Php/2-8-la-espiga/front/src/utils/cart.ts:145-147 | the cookie is deleted and the cart reads as empty |
| Otp.GenerateOtp | Python/careplus/back/src/utils/_otp.py:11-13 | the code is 6 decimal digits, the i-th being the i-th draw |
| Otp.Newest | Python/careplus/back/src/utils/_otp.py:46-55 | finds a pending record (the user's, unused, unexpired) with the latest creation time, and finds none exactly when the user has no pending record |
| Otp.Invalidate | Python/careplus/back/src/utils/_otp.py:22-25 | every record of the user becomes used; the others are kept |
| Otp.StoreLeavesOneUnused | Python/careplus/back/src/utils/_otp.py:22-36 | after storing, the new record is the user's only unused one, and other users' records are unchanged |
| Otp.StoredIsNewest | Python/careplus/back/src/utils/_otp.py:28-55 | until it expires, the freshly stored code is the one verification selects |
| Otp.StoreKeepsInvariant | Python/careplus/back/src/utils/_otp.py:28-36 | storing keeps ids unique and below the counter, with attempts in [0, max] |
| Otp.VerifyNotFound | Python/careplus/back/src/utils/_otp.py:57-58 | the result is "not found" exactly when the user has no pending record, and then nothing changes |
| Otp.VerifyExhausted | Python/careplus/back/src/utils/_otp.py:63-67 | an exhausted record is rejected and marked used, with attempts unchanged, whatever the code given |
| Otp.VerifyCounts | Python/careplus/back/src/utils/_otp.py:69-84 | otherwise attempts rise by exactly 1, whatever the code. A wrong code reports max − old − 1 remaining and leaves the record unused. The right code marks it used and returns its token. No other record changes |
| Otp.VerifyKeepsInvariant | Python/careplus/back/src/utils/_otp.py:41-84 | verifying keeps the table invariant and never makes a used record unused |
| Otp.RemainingNonNegative | Python/careplus/back/src/utils/_otp.py:75-77 | under the invariant, the remaining count is never negative |
| Otp.SucceedsAtMostOnce | Python/careplus/back/src/utils/_otp.py:79-84 | once a record is accepted, no later lookup, for any user and time, selects it again |
| Otp.StoreKeepsUsed | Python/careplus/back/src/utils/_otp.py:22-36 | storing keeps every row and every used row stays used |
| Otp.VerificationCodes.StoreOtp | Python/careplus/back/src/utils/_otp.py:16-38 | the table becomes the invalidated records plus one fresh record: attempts 0, max 5, unused, expiring 600 s after now |
| Otp.VerificationCodes.VerifyOtp | Python/careplus/back/src/utils/_otp.py:41-84 | the step-by-step updates produce exactly the result and table of `VerifyStep`, and keep the invariant |
| OtpRoute.RouteAgreesWithUtil | Python/careplus/back/routers/auth/POST/verify_otp.py:28-79 | without a failing call, the route leaves the same table as `verify_otp`; each rejection is the matching 400, and success is the login with its token |
| OtpRoute.RouteStatuses | Python/careplus/back/routers/auth/POST/verify_otp.py:38-87 | every response is a successful login needing no further verification, a 400, or a 500; a 500 comes only from a failing call |
| OtpRoute.LookupFaultChangesNothing | Python/careplus/back/routers/auth/POST/verify_otp.py:81-87 | a failing lookup is a 500 and changes nothing |
| OtpRoute.FinalUpdateFault | Python/careplus/back/routers/auth/POST/verify_otp.py:69-87 | if the final update fails after a right code, the route answers 500, but the attempt stays counted and the record stays unused |
| OtpRoute.RouteKeepsInvariant | Python/careplus/back/routers/auth/POST/verify_otp.py:46-72 | whatever fails, the table invariant holds |
| OtpRoute.VerifyOtpRoute | Python/careplus/back/routers/auth/POST/verify_otp.py:28-87 | the call-by-call updates produce exactly the response and table of `Route` |
| Careplus.Status | Python/careplus/back/routers/auth/PUT/update_user.py:50-132 | each refusal has its HTTP code: 400 for an unknown role or an empty update, 401, 403, 404, and 500 for an internal error, each in both directions |
| Careplus.RoleById | Python/careplus/back/routers/auth/PUT/update_user.py:28-35 | a found name belongs to a role row with the id; none is found exactly when no row has the id |
| Careplus.RoleByName | Python/careplus/back/routers/auth/PUT/update_user.py:89-96 | a found id belongs to a role row with the name; none is found exactly when no row has the name |
| Careplus.RoleName | Python/careplus/back/routers/auth/PUT/update_user.py:26-35 | it is 404 exactly when the user has no profile; a profile whose role row is missing is an internal error; a found name is the profile's role |
| Careplus.RankedBelowRoles | Python/careplus/back/routers/auth/PUT/update_user.py:9-19 | below superadmin rank admin, medico, enfermero and recepcionista; below admin rank the last three |
| Careplus.SuperadminBelowNone | Python/careplus/back/routers/auth/PUT/update_user.py:9-15 | superadmin ranks below no role, and no role ranks below itself |
| UpdateUser.CallerPermissions | Python/careplus/back/routers/auth/PUT/update_user.py:58-68 | only a superadmin or an admin gets permissions |
| UpdateUser.BuildUpdateData | Python/careplus/back/routers/auth/PUT/update_user.py:98-111 | the dict holds exactly the given fields under their column names, plus `role_id` for a new role; it is empty exactly when nothing is given |
| UpdateUser.EditableIsRankedBelow | Python/careplus/back/routers/auth/PUT/update_user.py:9-19 | the editable roles are exactly those ranked strictly below the caller, so a superadmin is never editable |
| UpdateUser.AssignableRoles | Python/careplus/back/routers/auth/PUT/update_user.py:22-23 | no caller can grant superadmin, and an admin cannot grant admin |
| UpdateUser.UnauthenticatedRefused | Python/careplus/back/routers/auth/PUT/update_user.py:52-54 | a caller without an id gets 401 |
| UpdateUser.OtherRolesRefused | Python/careplus/back/routers/auth/PUT/update_user.py:56-68 | a caller who is neither superadmin nor admin gets 403 |
| UpdateUser.AcceptedUpdate | Python/careplus/back/routers/auth/PUT/update_user.py:50-114 | an accepted update comes from a superadmin or an admin; it targets a user ranked below the caller, grants only a known role ranked below the caller, and changes at least one field |
| UpdateUser.PermittedUpdate | Python/careplus/back/routers/auth/PUT/update_user.py:46-114 | the converse: a superadmin or an admin may edit any user ranked below it, granting any known role ranked below it, when one field is given; together with AcceptedUpdate this is an if-and-only-if |
| UpdateUser.AdminCannotGrantAdmin | Python/careplus/back/routers/auth/PUT/update_user.py:81-87 | an admin asking to grant admin or superadmin is refused |
| UpdateUser.EmptyRequestRefused | Python/careplus/back/routers/auth/PUT/update_user.py:113-114 | a request with no field is refused |
| UpdateUser.ApplyDataFor | Python/careplus/back/routers/auth/PUT/update_user.py:98-119 | writing the built dict is exactly the requested patch |
| UpdateUser.PatchedFields | Python/careplus/back/routers/auth/PUT/update_user.py:98-119 | the patch changes only the given fields, and the role only when a new role is given |
| UpdateUser.UpdateUser | Python/careplus/back/routers/auth/PUT/update_user.py:50-132 | a refusal returns its reason and changes nothing; an accepted update replaces only the target's profile, by the patch |
| DeleteUser.DeletableRoles | Python/careplus/back/routers/auth/DELETE/delete_user.py:56-64 | only a superadmin or an admin may delete |
| DeleteUser.Nullify | Python/careplus/back/routers/auth/DELETE/delete_user.py:81-83 | every `created_by` equal to the target becomes null, and the other rows are kept |
| DeleteUser.DeletableIsRankedBelow | Python/careplus/back/routers/auth/DELETE/delete_user.py:9-19 | the deletable roles are exactly those ranked strictly below the caller |
| DeleteUser.UnauthenticatedRefused | Python/careplus/back/routers/auth/DELETE/delete_user.py:47-49 | a caller without an id gets 401, and nothing changes |
| DeleteUser.SelfDeletionRefused | Python/careplus/back/routers/auth/DELETE/delete_user.py:51-52 | deleting yourself is refused with 403 whatever the tables hold, and nothing changes |
| DeleteUser.PermittedDeletion | Python/careplus/back/routers/auth/DELETE/delete_user.py:54-73 | a permitted deletion comes from a superadmin or an admin, and targets another user ranked below the caller |
| DeleteUser.DeletionPermitted | Python/careplus/back/routers/auth/DELETE/delete_user.py:41-73 | the converse: a superadmin or an admin may delete any other user ranked below it; together with PermittedDeletion this is an if-and-only-if |
| DeleteUser.NullifyIdempotent | Python/careplus/back/routers/auth/DELETE/delete_user.py:81-83 | clearing twice is clearing once |
| DeleteUser.ClearTablesEffect | Python/careplus/back/routers/auth/DELETE/delete_user.py:79-86 | after the loop, every listed table that did not fail is cleared of the target, and every other table is as it was |
| DeleteUser.DeletionSucceeds | Python/careplus/back/routers/auth/DELETE/delete_user.py:76-109 | if the `user_roles` delete succeeds, the call succeeds. The profile is gone. No row of a listed table that did not fail is created by the target. The Auth user is gone unless its delete failed |
| DeleteUser.UserRolesFailureKeepsClearing | Python/careplus/back/routers/auth/DELETE/delete_user.py:89-96 | a failing `user_roles` delete is a 500, yet the clearing already done stays and the profile remains |
| DeleteUser.RefusalWritesNothing | Python/careplus/back/routers/auth/DELETE/delete_user.py:45-73 | a refused deletion returns the refusal and writes nothing |
| DeleteUser.DeleteUser | Python/careplus/back/routers/auth/DELETE/delete_user.py:45-116 | the loop and the deletes produce exactly the result and tables of `Delete` |
| Categories.Lower | Php/2-8-la-espiga/back/database/migrations/2025_12_12_000001_create_categories_table.php:26 | `LOWER` keeps the length and lowers each letter A to Z |
| Categories.Replace | Php/2-8-la-espiga/back/database/migrations/2025_12_12_000001_create_categories_table.php:26 | `REPLACE` keeps the length and replaces each occurrence of the character |
| Categories.CategoriesView | Php/2-8-la-espiga/back/database/migrations/2025_12_12_000001_create_categories_table.php:21-29 | one row per category, in order, with its slug |
| Categories.SlugAt | Php/2-8-la-espiga/back/database/migrations/2025_12_12_000001_create_categories_table.php:26 | the slug has the name's length; each character is the name's, lowered, with a space turned into '-' |
| Categories.SlugHasNoSpace | Php/2-8-la-espiga/back/database/migrations/2025_12_12_000001_create_categories_table.php:26 | a slug contains no space |
| Categories.SlugIsLowercase | Php/2-8-la-espiga/back/database/migrations/2025_12_12_000001_create_categories_table.php:26 | a slug contains no capital A to Z |
| Categories.SlugIdempotent | Php/2-8-la-espiga/back/database/migrations/2025_12_12_000001_create_categories_table.php:26 | the slug of a slug is the slug |

## Left out

- Concurrency: `DB::transaction` and `lockForUpdate` are replaced by one atomic sequential method, `Checkout.SalesDatabase.Store`. Lock waits, lock order and deadlocks are not modelled.
- Floating point: PHP `(float)`, the `float` taxes column and JavaScript numbers are exact reals here. IEEE rounding, NaN and the infinities are not modelled.
- Nullable columns: `sale_items.taxes`, `sales.paid_at` and `categories.description` are nullable, but the model always gives them a value. A NULL `taxes` would make the item's `v_sale_items` total NULL, and `SUM` would skip it. `store` always writes `taxes` and `paid_at`, so the rows the core creates are unaffected.
- Randomness and clocks: `random_int`, `secrets.choice`, `now()` and `datetime.now` are parameters. Time is a whole number of seconds, so the 10-minute OTP expiry is 600.
- Collisions of pickup codes are not checked, as in the code.
- Auto-increment ids: a rolled-back checkout consumes no sale or item id in the model. A database may skip them.
- Timestamps: `created_at` and `updated_at` are not modelled, except an OTP record's `created_at`, taken to be the time of its insert.
- Laravel validation is one predicate, `ValidCheckout` / `ValidLines`, whose failure is `ValidationFailed`. The individual messages and the JSON shape of the responses are not modelled.
- HTTP messages are enum reasons; the Spanish texts only appear in comments.
- `show`: its route-model binding is inside "sale not found", the same answer `Show` gives.
- Cart I/O: cookie I/O, `JSON.parse`, the cookie options, `typeof window` and the `cart-change` event are not modelled. The parsed cookie is the `CookieValue` datatype.
- Cart session: `hasActiveSession` is a boolean input.
- Cart.CartCookies.AddItemToCart: the added quantity and every id are integers. JavaScript allows a fractional `quantity` here, which `addItemToCart` stores without truncation; that is not modelled. The model also has no default argument: the source's `quantity = 1` (cart.ts:104) is written out by callers.
- Careplus.RoleName: `.single()` is taken to give no data when there is no profile (the 404 of the code). The client's own raising on zero or several rows is not part of this model.
- Careplus.RoleByName: same for the role lookup. The first role with the name is used.
- Careplus authentication: the auth context (`get_auth_context`) is not modelled. The caller id is an `Option<string>`.
- 500 paths: only the failing Supabase calls named in `OtpRoute.Route` and `DeleteUser.Faults` are modelled. `update_user`'s single update is taken to succeed.
- Otp.VerificationCodes.VerifyOtp: the updates `.eq('id', ...)` are applied to the selected record's position. Ids are unique under the table invariant, so this is the same row.
- Otp: exceptions raised inside `store_otp` and `verify_otp` are not modelled.
- Categories.Lower: SQL `LOWER` is modelled on the ASCII letters A to Z only.
- Logging (`print`, `console.warn`, `traceback`) is left out.
- The Supabase clients, Laravel CRUD and auth controllers, seeders, models and front-end pages are outside the modelled core.
