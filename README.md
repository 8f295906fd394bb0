# Template marketplace: cart, order and verified purchase

A Dafny model of the store core of a Django template marketplace. A
logged-in user fills a cart with templates. The checkout asks the Razorpay
gateway for an order of the cart total. A verified payment turns every cart
line into a paid purchase carrying a license key and empties the cart.
Only paid purchases unlock the zip download and the right to review, and
every review recomputes the template's average rating. Viewing a template
counts a view on the template and in that day's analytics bucket.

The model has three modules:

- `Models` (models.dfy): the rows of the tables and the computations the
  model classes carry. These are `CartItem.get_total`,
  `Template.get_discount_percentage`, the defaults `Template.save` fills in,
  `Subscription.can_download` and the default-image choice.
- `Aggregates` (aggregates.dfy): sums over the values of a finite map. They
  are the SQL and Python aggregates over query sets whose rows come back in
  no fixed order. The lemmas prove that the sum does not depend on that
  order.
- `Views` (views.dfy): the views. Class `Marketplace` holds the database as
  one `Tables` value. Each table is a map, or for the wishlist a set. It is
  keyed by the table's `unique_together` pair, so the `get_or_create` and
  `update_or_create` calls can never produce duplicates. Every view is a
  method whose postcondition gives the new tables as an update of the old
  ones, which also says that nothing else changes. `Valid()` is the store
  invariant, and every method preserves it:
  - every row names a catalog template (the foreign keys);
  - every catalog row is a fixpoint of `Template.save`;
  - slugs are unique;
  - every purchase keeps the license key it was issued;
  - review ids are unique;
  - license keys never repeat.

Money is integer paise. The price columns are two-place decimals, so
`int(total * 100)` is exact and the order amount equals the paise total.

The following are parameters, not models:
- the gateway client, which is built at import time;
- `slugify`;
- the license-key generator (`uuid4`);
- the server's date.

## Model

| member | source | states |
|---|---|---|
| Models.LineTotal | marketplace/models.py:283-284 | a cart line costs price × quantity: nothing for quantity 0, exactly the price for quantity 1, never negative for non-negative inputs |
| Models.TruncDiv | marketplace/models.py:209 | Python's `int()` of an exact quotient, for either sign of the divisor: `q·b` lies between 0 and `a`, and the remainder `a − q·b` is smaller than the divisor in magnitude; for a positive divisor this is floor division of a non-negative dividend and its mirror for a negative one |
| Models.DiscountPercentage | marketplace/models.py:207-210 | 0 unless the original price is set, non-zero and above the price; for a non-negative price the result lies in 0..100 and is the whole percentage saved, rounded down (r·o ≤ 100·(o−p) < (r+1)·o) |
| Models.Save | marketplace/models.py:200-205 | fails exactly when both the short description and the description are missing (`len(None)`); otherwise only the slug and the short description change; an empty slug becomes `slugify(name)`; an empty short description becomes the description when it has at most 300 characters, and otherwise its first 297 characters plus "...", so it never exceeds 300 |
| Models.IsSavedIsFixpoint | marketplace/models.py:200-205 | the rows `save` leaves unchanged are exactly those with a slug (or a name that slugifies to nothing) and a short description (or an empty description) |
| Models.SaveIdempotent | marketplace/models.py:200-205 | saving a saved row again changes nothing |
| Models.CanDownload | marketplace/models.py:426-429 | the unlimited plan can always download; any other plan can exactly while it has used fewer downloads than its limit |
| Models.CanDownloadAntitone | marketplace/models.py:426-429 | using more downloads never restores the right to download |
| Models.DisplayImageOf | marketplace/models.py:181-198 | the thumbnail, else the fallback image, else the stock image at `id % 5`, which is a valid index for every id |
| Models.DisplayImagePeriodic | marketplace/models.py:197-198 | ids that differ by the pool size get the same stock image |
| Aggregates.SumValuesRemove | marketplace/views.py:488 | a sum over rows does not depend on their order: any row can be taken out first |
| Aggregates.SumValuesAdd | marketplace/views.py:488 | adding a row with a new key adds its value to the sum |
| Aggregates.SumValuesUpdate | marketplace/views.py:488 | replacing one row's value changes the sum by the difference |
| Aggregates.SumValuesBounds | marketplace/models.py:215 | n values that each lie in [lo, hi] sum to a value in [lo·n, hi·n] |
| Views.AverageRatingInRange | marketplace/models.py:214-216 | when a template has reviews and each rating lies in [lo, hi] (1..5 under the column's validators), their average rating lies in [lo, hi] |
| Aggregates.Sum | marketplace/views.py:488 | the loop that adds the rows one at a time, in whatever order they come, computes the sum |
| Views.Reverse | marketplace/urls.py:8-48 | an argument-less `reverse` gives a route's path exactly when the name is registered with a path that takes no arguments, and fails otherwise |
| Views.SuccessResponse | marketplace/views.py:621-630 | the response is a success exactly when the route name is registered with a path that takes no arguments, and then its redirect is that route's path; otherwise the view's own `except` reports "failed" |
| Views.AsWrittenSuccessIsReportedAsFailure | marketplace/views.py:621-624 | the route name written in the view is not registered, so a committed payment is reported as failed |
| Views.CorrectedSuccessRedirects | marketplace/urls.py:33 | with the registered name `purchase_success` the client is redirected to `/purchase-success/` |
| Views.CartTemplates | marketplace/views.py:483-485 | exactly the templates in the user's cart rows |
| Views.CartTotalOf | marketplace/views.py:488 | defines the cart total as the sum of the user's cart lines (`CartLines`), in no particular order; its properties are the CartTotal lemmas below |
| Views.CartLines | marketplace/views.py:488 | one line per template in the user's cart, each costing `get_total()` at the template's current price |
| Views.CartTotalAddLine | marketplace/views.py:468-471 | a new cart row of quantity 1 raises the user's cart total by exactly the template's price |
| Views.CartTotalRemoveLine | marketplace/views.py:501-504 | deleting the user's row of a template lowers the cart total by that line's total, and by nothing when there is no row |
| Views.CartTotalRepriced | marketplace/models.py:283-284 | a line is charged at the template's current price: repricing a template in the cart changes the total by the difference of that line's totals |
| Views.ValuesList | marketplace/views.py:558 | a list holding each cart template id exactly once |
| Views.ClearUserCart | marketplace/views.py:619 | deletes every cart row of the user and keeps every other row unchanged |
| Views.AddDownload | marketplace/views.py:615 | defines `template.downloads += 1` as one more download with every other column of the row unchanged |
| Views.BumpDownloads | marketplace/views.py:614-616 | each bought template gains one download; no other template or column changes |
| Views.LicenseKeysUnique | marketplace/models.py:233-238 | two different purchases never share a license key |
| Views.PayLine | marketplace/views.py:596-612 | the user's purchase of the template ends paid with the given order and payment ids; an existing row keeps its amount and license key; a new row charges the current price under a fresh key; no other purchase changes |
| Views.PurchaseKeys | marketplace/views.py:596-600 | exactly the (user, template) keys of the bought templates |
| Views.PaidAllEmpty | marketplace/views.py:596 | with an empty cart the purchase table is unchanged |
| Views.PaidAllStep | marketplace/views.py:596-612 | handling one more cart template is one more `PayLine`, whatever the order of the cart rows |
| Views.PaidAllFinalizes | marketplace/views.py:596-612 | after the loop, each bought template has a paid purchase with the given ids; existing rows keep their amount and key; new rows carry the price and a fresh key; all other purchases are unchanged and no other row appears |
| Views.PaidEntry | marketplace/views.py:597-612 | defines a cart template's purchase after the loop: an existing row with `paid` set and the new ids; otherwise a new row with the ids, the template's current price, `paid` set and the key the generator issues for its (user, template) pair |
| Views.PaidAll | marketplace/views.py:596-612 | defines the purchase table after the loop: `PaidEntry` for each of the user's cart templates, and every other row as it was; `PaidAllFinalizes`, `PaidAllStep` and `PayForCart` state and prove what it contains |
| Views.HasPaidPurchase | marketplace/views.py:460-464 | defines the paid-purchase query `filter(user, template, paid=True).exists()`, which is also the gate at views.py:238-242, 675-679 and 707-711 |
| Views.PaidAllOpensGates | marketplace/views.py:596-612 | after a verified payment the user has a paid purchase of every cart template, so the download and review gates open, and every paid purchase before stays paid |
| Views.PaidAllKeepsLicenses | marketplace/models.py:233-238 | finalizing purchases keeps every row's issued license key |
| Views.PaidAllRefersTo | marketplace/views.py:596-600 | finalizing purchases of catalog templates adds no row outside the catalog |
| Views.CatalogBumpDownloads | marketplace/views.py:614-616 | a catalog that gains downloads keeps its saved rows and unique slugs |
| Views.PayForCartStep | marketplace/views.py:595-616 | one loop iteration finalizes exactly one more purchase and adds exactly one more download |
| Views.PayForCart | marketplace/views.py:595-616 | the loop over the cart rows produces the finalized purchase table and the catalog with one more download per cart template |
| Views.PaymentCommitted | marketplace/views.py:595-619 | after a committed payment the user's cart is empty and the catalog keeps its keys |
| Views.PaymentRetryChangesNothing | marketplace/views.py:595-619 | the cart is cleared after the loop, so a retried verification, with any ids, changes no table |
| Views.PaymentPreservesInvariant | marketplace/views.py:595-619 | a committed payment keeps the store invariant: foreign keys, saved rows, unique slugs, issued license keys and unique review ids |
| Views.CatalogStatsUpdate | marketplace/views.py:219-220 | changing only a template's counters keeps the catalog valid and its keys unchanged |
| Views.FindPublished | marketplace/views.py:216 | None exactly when no published template has the slug; otherwise the published template with that slug, and the only one |
| Views.CountView | marketplace/views.py:219-220 | the template's views grow by one; its listing and every other template are unchanged |
| Views.RecordView | marketplace/views.py:223-229 | today's bucket is created with zero counters when missing and its views grow by one; no other bucket or counter changes |
| Views.CountViewValid | marketplace/views.py:219-220 | counting a view keeps the catalog valid |
| Views.Present | marketplace/views.py:579 | defines Python's truthiness of a form value: present and not the empty string |
| Views.VerifyGate | marketplace/views.py:572-592 | verification passes exactly for a POST with all three fields present, a configured client and a signature the gateway accepts; the exits, in order: a non-POST gives the 405 error, a missing or empty field gives `missing_data`, a missing client gives `failed`, and a rejected signature gives `failed` |
| Views.ReviewersOf | marketplace/models.py:213 | exactly the users who reviewed the template |
| Views.RatingsOf | marketplace/models.py:213-215 | the ratings of the template's reviews, one per reviewer |
| Views.AverageRating | marketplace/models.py:215 | defines `Avg('rating')` over the template's reviews as the exact quotient of their sum by their count; `AverageRatingInRange` bounds it |
| Views.RatingUpdated | marketplace/models.py:212-218 | defines the catalog after `update_rating`: with reviews, the template's rating becomes `AverageRating` and its `total_reviews` their count; with none, the catalog is unchanged; `RecomputeRating` computes it and `RatingUpdatedValid` proves it keeps the catalog valid |
| Views.RecomputeRating | marketplace/models.py:212-218 | computes the catalog that `update_rating` specifies: the average rating and the review count when reviews exist, and no change otherwise; saving the row changes nothing else |
| Views.RatingUpdatedValid | marketplace/models.py:212-218 | recomputing a rating keeps the catalog valid |
| Views.UpsertReview | marketplace/views.py:717-724 | the single (template, user) review takes the new rating and comment; it keeps its id, or gets the next id when created; no other review changes |
| Views.UpsertKeepsIdsUnique | marketplace/models.py:262-263 | after an upsert, review ids stay unique and below the next id, which advances only on creation |
| Views.FindOwnReview | marketplace/views.py:737 | None exactly when the user has no review with the id; otherwise the key of that review, and the only review with that id |
| Views.DeleteKeepsIdsUnique | marketplace/views.py:739 | deleting a review keeps ids unique |
| Views.SubmittedRating | marketplace/views.py:714 | the stored rating is the submitted integer, 5 when the field is absent, and nothing when `int()` rejects the text |
| Views.Marketplace.constructor | marketplace/models.py:68-161 | a store over a saved catalog with unique slugs and empty cart, purchase, review, wishlist and analytics tables satisfies the invariant |
| Views.Marketplace.AddToCart | marketplace/views.py:455-478 | an unknown template gives "not found", and a template the user owns gives "already own", both with no change; an existing cart row gives "already in cart" with no change, so a second call changes nothing; otherwise exactly that one row appears, with quantity 1 |
| Views.Marketplace.RemoveFromCart | marketplace/views.py:499-507 | exactly the (user, template) row is deleted when present; a missing row is no error; nothing else changes |
| Views.Marketplace.CartTotal | marketplace/views.py:488 | the sum of the user's cart lines at the current prices |
| Views.Marketplace.CartView | marketplace/views.py:482-495 | the user's cart templates, their total and their count |
| Views.Marketplace.Checkout | marketplace/views.py:515-532 | redirects to the cart exactly when it is empty; otherwise fails with a server error exactly when the `RAZORPAY_KEY_ID` setting is undefined, and shows the cart total and that key when it is defined |
| Views.Marketplace.CreateOrder | marketplace/views.py:536-565 | an empty cart is refused before the gateway is consulted; otherwise the gateway is asked for an order of the cart total in paise and INR, and the response carries the gateway's order id, that amount and exactly the cart's template ids; no table changes |
| Views.Marketplace.VerifyPayment | marketplace/views.py:570-630 | any failed gate leaves every table unchanged; a verified payment commits: the purchases are finalized, each cart template gains one download (even one already bought), the cart is emptied, analytics is untouched; the response is the corrected redirect to `/purchase-success/`, while as written the same committed tables come with `PaymentFailed(NoReverseMatch)` (see Findings) |
| Views.Marketplace.DownloadTemplate | marketplace/views.py:670-693 | refuses exactly without a paid purchase; otherwise serves `<slug>.zip` exactly when the template has a file; no table changes |
| Views.Marketplace.UpdateRating | marketplace/models.py:212-218 | the catalog becomes `RatingUpdated`: the average and count when the template has reviews, unchanged otherwise; no other table changes |
| Views.Marketplace.AddReview | marketplace/views.py:702-730 | rejects a non-POST, an unknown template, a user without a paid purchase and a rating `int()` rejects, each with no change; otherwise upserts the single (template, user) review with the submitted or default rating, reports whether it was created, and recomputes the template's rating |
| Views.Marketplace.DeleteReview | marketplace/views.py:735-744 | rejects a non-POST and any id that is not one of the user's reviews, with no change; otherwise deletes exactly that review and recomputes the rating, which stays as it was when no review remains |
| Views.Marketplace.AddToWishlist | marketplace/views.py:752-766 | an unknown template changes nothing; otherwise the (user, template) row is present afterwards, and "added" is reported exactly when it was missing |
| Views.Marketplace.RemoveFromWishlist | marketplace/views.py:770-778 | exactly the (user, template) row is deleted when present; nothing else changes |
| Views.Marketplace.TemplateDetail | marketplace/views.py:214-259 | an unknown or unpublished slug is a 404 with no change; otherwise the published template with that slug gains one view, today's analytics bucket gains one view, and the page reports the viewer's paid purchase, cart row, wishlist row and own review |

## Left out

- Rendering, flash messages, redirects and JSON shapes: each view's response is collapsed to a small result datatype.
- Authentication, registration, listing, search, categories, previews, profiles, dashboards and uploads: these are outside the store core.
- File serving: `DownloadTemplate` says which file name would be served, not the byte stream.
- Razorpay internals: the HMAC signature check and remote order creation are the injected `Gateway`. The receipt string with its timestamp is not modelled.
- `create_order`: an exception from `order.create` is not caught by the view, so it becomes a server error. The model reports it as `GatewayRaised` and changes nothing.
- Views.RecomputeRating, Views.AverageRating, Views.RatingUpdated: the average is an exact rational. The source's float `Avg` and `round(avg, 2)` into a two-place decimal column are left out, because they are floating point.
- `slugify` is a parameter. Django's implementation is not part of this model.
- `uuid4` is an injective generator keyed by the (user, template) pair. This states the unique column rather than modelling randomness.
- The server date `timezone.now().date()` is the `today` parameter of `TemplateDetail`.
- Views.Marketplace.TemplateDetail: the analytics bucket's stamped date is assumed to equal `today`. In the source, `date` is `auto_now_add` (models.py:385), so a created row is stamped with the server's local date. With time zones enabled and a non-UTC zone, that date can differ from the `timezone.now().date()` used for the lookup near midnight. The row would then be keyed by another day, and a later view in that window could fail the insert on `unique_together` after `views` was already saved. This depends on settings the model does not see.
- Views.Routes: the paths assume the marketplace URL configuration is mounted at `/`. The project-level URL configuration is not part of this model. The route names drop the `marketplace:` namespace on both sides of the lookup, and the NoReverseMatch finding does not depend on either point.
- Column widths are not modelled. `rating` is `DecimalField(max_digits=3, decimal_places=2)` (models.py:155), and views, downloads and total_reviews are bounded integer columns (models.py:153-156). The model's counters are unbounded, so it does not capture a save that the database would reject. An example is an average of 10 or more from out-of-range ratings, which add_review accepts.
- Views.Marketplace.AddReview: the comment is taken as already stripped, since `.strip()` is string handling. The rating field is submitted text that `int()` either accepts (any integer) or rejects. The source's rejection is an uncaught `ValueError`; the model reports `ReviewRatingInvalid` and changes nothing. The 1..5 validators on the column are not run by `update_or_create`, and the model does not check the range either.
- Views.Marketplace.VerifyPayment: the loop's per-row database writes are computed on the table values (`PayForCart`) and stored in one assignment. The source writes each row in turn, and a crash halfway would leave partial writes; concurrency and crashes are not modelled.
- Views.Marketplace.UpdateRating, Views.AverageRating, Views.RatingUpdated: the rating becomes the exact average, not the float `Avg` rounded by `round(avg, 2)`; AddReview and DeleteReview inherit this. The rating write is computed on the table values (`RecomputeRating`) and stored in one assignment.
- Concurrency: the read-modify-write counters (`views += 1`, `downloads += 1`) and duplicate payment callbacks are sequential in the model.
- The data-only models (UserTemplate, UserProduct, Workspace, WorkspaceMember, TemplateComponent, UserProfile), admin.py and `Template.get_card_image`: they hold no store logic.
- In three places the model follows the source where a reader might expect otherwise:
  - `verify_payment` adds a download for every cart template, including ones already bought;
  - it never touches the analytics table;
  - `update_rating` keeps the old rating and count when no review remains.

## Findings

| source | as written | input that shows it | evidently intended | confidence | as-written member | corrected member |
|---|---|---|---|---|---|---|
| marketplace/views.py:623 | `reverse('marketplace:purchase-success')`, which no route registers (urls.py:33 names it `purchase_success`) | any verified payment: the purchases are written and the cart is cleared, then `reverse` raises NoReverseMatch inside the `try`, and the client gets `{'status': 'failed'}` with status 400 | redirect to `/purchase-success/` after a successful commit | high; not executed | Views.AsWrittenSuccessIsReportedAsFailure | Views.Marketplace.VerifyPayment |
