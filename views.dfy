/**
 * The cart, checkout and purchase views of marketplace/views.py, over an
 * in-memory store: each database table is a map keyed by its unique
 * constraint, so "at most one row per key" holds by construction.
 *
 * The payment gateway client, which the views module builds once at import
 * time (or leaves as None when it cannot), is an injected `Gateway` value.
 * Rendering, redirects and flash messages collapse to one small result
 * datatype per view.
 */
module Views {
  import opened Models
  import opened Aggregates

  // ---------------------------------------------------------------------------
  // Collaborators and results
  // ---------------------------------------------------------------------------

  datatype HttpMethod = Get | Post | OtherMethod

  /**
   * The payment gateway client. `keyId` is the `RAZORPAY_KEY_ID` setting, or
   * None when the setting is undefined; `configured` is false when the
   * import-time construction failed, which it does whenever `keyId` is None;
   * `createRemoteOrder` gives the remote order id, or None when `order.create`
   * raises; `verifySignature` is the signature check.
   */
  datatype Gateway = Gateway(
    keyId: Option<string>,
    configured: bool,
    createRemoteOrder: (Paise, string) -> Option<string>,
    verifySignature: (string, string, string) -> bool)

  const Currency: string := "INR"

  datatype CartAddResult = CartTemplateNotFound | AlreadyOwned | AddedToCart | AlreadyInCart

  /** The checkout page's outcome; `CheckoutKeyMissing` is the AttributeError (a server error) of reading an undefined key setting. */
  datatype CheckoutResult = CheckoutCartEmpty | CheckoutKeyMissing | CheckoutPage(checkoutTotal: Paise, razorpayKey: string)

  datatype OrderResult =
    | EmptyCart
    | GatewayNotConfigured
    | GatewayRaised
    | OrderCreated(orderId: string, amount: Paise, templateIds: seq<TemplateId>)

  datatype VerifyFailure = ClientMissing | SignatureInvalid | NoReverseMatch

  datatype VerifyResponse =
    | MethodNotAllowed
    | MissingData
    | PaymentFailed(failure: VerifyFailure)
    | PaymentSucceeded(redirect: string)

  datatype DownloadResult = DownloadTemplateNotFound | DownloadPurchaseRequired | ServeZip(fileName: string) | FileNotAvailable

  /** The `rating` field of a review form: absent, an integer literal, or text `int()` rejects. */
  datatype RatingField = RatingAbsent | RatingInt(n: int) | RatingNotAnInt

  datatype ReviewResult =
    | ReviewMethodNotAllowed
    | ReviewTemplateNotFound
    | ReviewPurchaseRequired
    | ReviewRatingInvalid
    | ReviewSubmitted(created: bool)

  datatype DeleteReviewResult = DeleteMethodNotAllowed | ReviewNotFound | ReviewDeleted(ofTemplate: TemplateId)

  datatype WishlistResult = WishlistTemplateNotFound | AddedToWishlist | AlreadyInWishlist

  datatype DetailResult =
    | DetailNotFound
    | DetailPage(template: TemplateId, purchased: bool, inCart: bool, inWishlist: bool, userReview: Option<Review>)

  // ---------------------------------------------------------------------------
  // URL reversing (marketplace/urls.py)
  // ---------------------------------------------------------------------------

  /**
   * The named routes of the marketplace application that are registered with
   * a path taking no arguments, and their paths, with the application mounted
   * at the site root.
   */
  const Routes: map<string, string> := map[
    "home" := "/",
    "template_list" := "/templates/",
    "themes" := "/themes/",
    "search" := "/search/",
    "register" := "/register/",
    "login" := "/login/",
    "logout" := "/logout/",
    "cart_view" := "/cart/",
    "checkout" := "/checkout/",
    "create_order" := "/create-order/",
    "verify_payment" := "/verify-payment/",
    "purchase_success" := "/purchase-success/",
    "wishlist_view" := "/wishlist/",
    "profile_view" := "/profile/",
    "update_profile" := "/profile/update/",
    "my_purchases" := "/my-purchases/"
  ]

  /** `reverse` of a route without arguments: its path, or None where Django raises NoReverseMatch. */
  function Reverse(name: string): (r: Option<string>)
    ensures r.Some? <==> name in Routes
    ensures r.Some? ==> r.value == Routes[name]
  {
    if name in Routes then Some(Routes[name]) else None
  }

  /** The route name `verify_payment` reverses after it has committed the purchases. */
  const AsWrittenSuccessRoute: string := "purchase-success"
  /** The name under which the purchase-success page is registered. */
  const PurchaseSuccessRoute: string := "purchase_success"

  /**
   * The response `verify_payment` builds once every purchase is written and
   * the cart is cleared; a failing `reverse` is caught by the view's own
   * `except Exception` and becomes a "failed" response.
   */
  function SuccessResponse(routeName: string): (r: VerifyResponse)
    ensures r.PaymentSucceeded? <==> routeName in Routes
    ensures r.PaymentSucceeded? ==> r.redirect == Routes[routeName]
    ensures !r.PaymentSucceeded? ==> r == PaymentFailed(NoReverseMatch)
  {
    match Reverse(routeName)
    case Some(path) => PaymentSucceeded(path)
    case None => PaymentFailed(NoReverseMatch)
  }

  /**
   * As written, the success path reverses a name no route carries, so a
   * verified payment is reported to the client as failed although its
   * purchases were written and its cart cleared.
   */
  lemma AsWrittenSuccessIsReportedAsFailure()
    ensures SuccessResponse(AsWrittenSuccessRoute) == PaymentFailed(NoReverseMatch)
  {
    assert AsWrittenSuccessRoute !in Routes;
  }

  /** With the registered route name the client is sent to the purchase-success page. */
  lemma CorrectedSuccessRedirects()
    ensures SuccessResponse(PurchaseSuccessRoute) == PaymentSucceeded("/purchase-success/")
  {
  }

  // ---------------------------------------------------------------------------
  // Views of the tables
  // ---------------------------------------------------------------------------

  /** The templates in user `u`'s cart. */
  function CartTemplates(cart: map<(UserId, TemplateId), int>, u: UserId): (r: set<TemplateId>)
    ensures forall t :: t in r <==> (u, t) in cart
  {
    set k | k in cart && k.0 == u :: k.1
  }

  /** Whether `u` holds a paid purchase of `t`: the gate of downloads, reviews and "already own". */
  predicate HasPaidPurchase(purchases: map<(UserId, TemplateId), Purchase>, u: UserId, t: TemplateId)
  {
    (u, t) in purchases && purchases[(u, t)].paid
  }

  /** Every cart row names a template of the catalog (the foreign key). */
  ghost predicate CartRefersTo(cart: map<(UserId, TemplateId), int>, catalog: set<TemplateId>)
  {
    forall k :: k in cart ==> k.1 in catalog
  }

  /** Every row of every table names a template of the catalog (the foreign keys). */
  ghost predicate RowsReferTo(
    catalog: set<TemplateId>, cart: map<(UserId, TemplateId), int>,
    purchases: map<(UserId, TemplateId), Purchase>, reviews: map<(TemplateId, UserId), Review>,
    wishlist: set<(UserId, TemplateId)>, analytics: map<(TemplateId, Day), Analytics>)
  {
    && CartRefersTo(cart, catalog)
    && (forall k :: k in purchases ==> k.1 in catalog)
    && (forall k :: k in reviews ==> k.0 in catalog)
    && (forall k :: k in wishlist ==> k.1 in catalog)
    && (forall k :: k in analytics ==> k.0 in catalog)
  }

  /** No two reviews share an id (the primary key). */
  ghost predicate ReviewIdsDistinct(reviews: map<(TemplateId, UserId), Review>)
  {
    forall k1, k2 {:trigger reviews[k1].id, reviews[k2].id} :: k1 in reviews && k2 in reviews && k1 != k2 ==> reviews[k1].id != reviews[k2].id
  }

  /** Every review id is below `next`, and no two reviews share one. */
  ghost predicate ReviewIdsUnique(reviews: map<(TemplateId, UserId), Review>, next: nat)
  {
    && (forall k :: k in reviews ==> reviews[k].id < next)
    && ReviewIdsDistinct(reviews)
  }

  /** User `u`'s cart lines, each mapped to `get_total()` at the template's current price. */
  function CartLines(cart: map<(UserId, TemplateId), int>, templates: map<TemplateId, Template>, u: UserId): (r: map<TemplateId, Paise>)
    requires CartRefersTo(cart, templates.Keys)
    ensures r.Keys == CartTemplates(cart, u)
    ensures forall t :: t in r ==> r[t] == LineTotal(templates[t].listing.price, cart[(u, t)])
  {
    map t | t in CartTemplates(cart, u) :: LineTotal(templates[t].listing.price, cart[(u, t)])
  }

  /** `sum(item.get_total() for item in cart_items)` for user `u`. */
  ghost function CartTotalOf(cart: map<(UserId, TemplateId), int>, templates: map<TemplateId, Template>, u: UserId): Paise
    requires CartRefersTo(cart, templates.Keys)
  {
    SumValues(CartLines(cart, templates, u))
  }

  /** Adding a new cart row of quantity 1 raises the user's total by the template's price. */
  lemma CartTotalAddLine(cart: map<(UserId, TemplateId), int>, templates: map<TemplateId, Template>, u: UserId, t: TemplateId)
    requires CartRefersTo(cart, templates.Keys) && t in templates && (u, t) !in cart
    ensures CartRefersTo(cart[(u, t) := 1], templates.Keys)
    ensures CartTotalOf(cart[(u, t) := 1], templates, u) == CartTotalOf(cart, templates, u) + templates[t].listing.price
  {
    var before := CartLines(cart, templates, u);
    var after := CartLines(cart[(u, t) := 1], templates, u);
    assert t !in before;
    assert after == before[t := templates[t].listing.price];
    SumValuesAdd(before, t, templates[t].listing.price);
  }

  /** Deleting the user's row of `t` lowers the total by that line's total, and by nothing when there is no row. */
  lemma CartTotalRemoveLine(cart: map<(UserId, TemplateId), int>, templates: map<TemplateId, Template>, u: UserId, t: TemplateId)
    requires CartRefersTo(cart, templates.Keys)
    ensures CartRefersTo(cart - {(u, t)}, templates.Keys)
    ensures CartTotalOf(cart - {(u, t)}, templates, u) ==
      CartTotalOf(cart, templates, u) - (if (u, t) in cart then LineTotal(templates[t].listing.price, cart[(u, t)]) else 0)
  {
    var before := CartLines(cart, templates, u);
    var after := CartLines(cart - {(u, t)}, templates, u);
    if (u, t) in cart {
      assert after == before - {t};
      SumValuesRemove(before, t);
    } else {
      assert after == before;
    }
  }

  /**
   * A line is charged at the template's current price, not the price when it
   * was added: repricing a template in the cart changes the total by the
   * difference of that line's totals.
   */
  lemma CartTotalRepriced(cart: map<(UserId, TemplateId), int>, templates: map<TemplateId, Template>, u: UserId, t: TemplateId, price: Paise)
    requires CartRefersTo(cart, templates.Keys) && (u, t) in cart
    ensures var repriced := templates[t := templates[t].(listing := templates[t].listing.(price := price))];
      && CartRefersTo(cart, repriced.Keys)
      && CartTotalOf(cart, repriced, u) ==
           CartTotalOf(cart, templates, u) - LineTotal(templates[t].listing.price, cart[(u, t)]) + LineTotal(price, cart[(u, t)])
  {
    var repriced := templates[t := templates[t].(listing := templates[t].listing.(price := price))];
    assert repriced.Keys == templates.Keys;
    var before := CartLines(cart, templates, u);
    var after := CartLines(cart, repriced, u);
    assert after == before[t := LineTotal(price, cart[(u, t)])];
    SumValuesUpdate(before, t, LineTotal(price, cart[(u, t)]));
  }

  /**
   * `values_list(..., flat=True)` of a query set of distinct ids: a list
   * holding each id exactly once, in whatever order the rows come back.
   */
  method ValuesList(ids: set<TemplateId>) returns (list: seq<TemplateId>)
    ensures forall t :: t in list <==> t in ids
    ensures forall i, j :: 0 <= i < j < |list| ==> list[i] != list[j]
    ensures |list| == |ids|
  {
    list := [];
    var rest := ids;
    while rest != {}
      invariant rest <= ids
      invariant forall t :: t in list <==> t in ids && t !in rest
      invariant forall i, j :: 0 <= i < j < |list| ==> list[i] != list[j]
      invariant |list| + |rest| == |ids|
      decreases |rest|
    {
      var t :| t in rest;
      list := list + [t];
      rest := rest - {t};
    }
  }

  /** The cart with every row of user `u` deleted and every other row kept. */
  function ClearUserCart(cart: map<(UserId, TemplateId), int>, u: UserId): (r: map<(UserId, TemplateId), int>)
    ensures forall k :: k in r <==> k in cart && k.0 != u
    ensures forall k :: k in r ==> r[k] == cart[k]
  {
    map k | k in cart && k.0 != u :: cart[k]
  }

  /** The catalog after `downloads += 1` on every template of `bought`, and no other change. */
  function BumpDownloads(templates: map<TemplateId, Template>, bought: set<TemplateId>): (r: map<TemplateId, Template>)
    ensures r.Keys == templates.Keys
    ensures forall t :: t in r ==> r[t] == if t in bought then AddDownload(templates[t]) else templates[t]
  {
    map t | t in templates :: if t in bought then AddDownload(templates[t]) else templates[t]
  }

  /** `template.downloads += 1`: one more download, and no other column changes. */
  function AddDownload(row: Template): Template
  {
    row.(counters := row.counters.(downloads := row.counters.downloads + 1))
  }

  /**
   * The license-key generator: `uuid4` in the source, here a parameter that
   * gives each purchase row a key determined by its (user, template) pair.
   * The table declares the column unique, which the model states as the
   * generator never repeating a key.
   */
  type LicenseGenerator = ((UserId, TemplateId)) -> nat

  ghost predicate Injective(licenseKey: LicenseGenerator)
  {
    forall k1, k2 :: k1 != k2 ==> licenseKey(k1) != licenseKey(k2)
  }

  /** Every purchase still carries the license key it was created with. */
  ghost predicate LicensesIssued(purchases: map<(UserId, TemplateId), Purchase>, licenseKey: LicenseGenerator)
  {
    forall k :: k in purchases ==> purchases[k].licenseKey == licenseKey(k)
  }

  /** The `unique=True` constraint on `license_key`: no two purchases share a key. */
  lemma LicenseKeysUnique(purchases: map<(UserId, TemplateId), Purchase>, licenseKey: LicenseGenerator, k1: (UserId, TemplateId), k2: (UserId, TemplateId))
    requires LicensesIssued(purchases, licenseKey) && Injective(licenseKey)
    requires k1 in purchases && k2 in purchases && k1 != k2
    ensures purchases[k1].licenseKey != purchases[k2].licenseKey
  {
    assert purchases[k1].licenseKey == licenseKey(k1) && purchases[k2].licenseKey == licenseKey(k2);
  }

  /**
   * `Purchase.objects.get_or_create` of user `u`'s purchase of `t` followed,
   * for a row that already existed, by the view's update: the row ends paid
   * with the given ids; a created row also charges `price` and gets the key
   * `freshKey`. No other row changes.
   */
  function PayLine(purchases: map<(UserId, TemplateId), Purchase>, u: UserId, t: TemplateId, price: Paise, orderId: string, paymentId: string, freshKey: nat): (r: map<(UserId, TemplateId), Purchase>)
    ensures r.Keys == purchases.Keys + {(u, t)}
    ensures forall k :: k in purchases && k != (u, t) ==> r[k] == purchases[k]
    ensures r[(u, t)].paid && r[(u, t)].orderId == orderId && r[(u, t)].paymentId == paymentId
    ensures (u, t) in purchases ==> r[(u, t)].amount == purchases[(u, t)].amount && r[(u, t)].licenseKey == purchases[(u, t)].licenseKey
    ensures (u, t) !in purchases ==> r[(u, t)].amount == Some(price) && r[(u, t)].licenseKey == freshKey
  {
    if (u, t) in purchases then
      purchases[(u, t) := purchases[(u, t)].(paid := true, orderId := orderId, paymentId := paymentId)]
    else
      purchases[(u, t) := Purchase(orderId, paymentId, Some(price), true, freshKey)]
  }

  /** The (user, template) keys of user `u`'s purchases of the templates in `bought`. */
  function PurchaseKeys(u: UserId, bought: set<TemplateId>): (r: set<(UserId, TemplateId)>)
    ensures forall k :: k in r <==> k.0 == u && k.1 in bought
  {
    set t | t in bought :: (u, t)
  }

  /** User `u`'s purchase `k` once paid: an existing row takes the ids, a new row also the price and the fresh key. */
  function PaidEntry(purchases: map<(UserId, TemplateId), Purchase>, k: (UserId, TemplateId), templates: map<TemplateId, Template>,
    orderId: string, paymentId: string, licenseKey: LicenseGenerator): Purchase
    requires k in purchases || k.1 in templates
  {
    if k in purchases then purchases[k].(paid := true, orderId := orderId, paymentId := paymentId)
    else Purchase(orderId, paymentId, Some(templates[k.1].listing.price), true, licenseKey(k))
  }

  /**
   * The purchase table once `verify_payment` has handled every template in
   * `bought` for user `u`, whatever the order of the cart rows: each such
   * purchase finalized as `PayLine` does, every other row as it was.
   */
  function PaidAll(purchases: map<(UserId, TemplateId), Purchase>, u: UserId, bought: set<TemplateId>, templates: map<TemplateId, Template>,
    orderId: string, paymentId: string, licenseKey: LicenseGenerator): map<(UserId, TemplateId), Purchase>
    requires bought <= templates.Keys
  {
    map k | k in purchases.Keys + PurchaseKeys(u, bought) ::
      if k.0 == u && k.1 in bought then PaidEntry(purchases, k, templates, orderId, paymentId, licenseKey) else purchases[k]
  }

  /** A table that agrees with `PaidAll` key by key is `PaidAll`. */
  lemma PaidAllPointwise(purchases: map<(UserId, TemplateId), Purchase>, u: UserId, bought: set<TemplateId>, templates: map<TemplateId, Template>,
    orderId: string, paymentId: string, licenseKey: LicenseGenerator, r: map<(UserId, TemplateId), Purchase>)
    requires bought <= templates.Keys
    requires forall k :: k in r <==> k in purchases || (k.0 == u && k.1 in bought)
    requires forall k :: k in r ==> r[k] == if k.0 == u && k.1 in bought then PaidEntry(purchases, k, templates, orderId, paymentId, licenseKey) else purchases[k]
    ensures r == PaidAll(purchases, u, bought, templates, orderId, paymentId, licenseKey)
  {
    assert r.Keys == PaidAll(purchases, u, bought, templates, orderId, paymentId, licenseKey).Keys;
  }

  /** With nothing handled yet the purchase table is unchanged. */
  lemma PaidAllEmpty(purchases: map<(UserId, TemplateId), Purchase>, u: UserId, templates: map<TemplateId, Template>,
    orderId: string, paymentId: string, licenseKey: LicenseGenerator)
    ensures PaidAll(purchases, u, {}, templates, orderId, paymentId, licenseKey) == purchases
  {
    assert PurchaseKeys(u, {}) == {};
  }

  /** Handling one more template is one more `PayLine`, at the template's price and with its row's fresh key. */
  lemma PaidAllStep(purchases: map<(UserId, TemplateId), Purchase>, u: UserId, done: set<TemplateId>, templates: map<TemplateId, Template>,
    orderId: string, paymentId: string, licenseKey: LicenseGenerator, t: TemplateId)
    requires done <= templates.Keys && t in templates && t !in done
    ensures PaidAll(purchases, u, done + {t}, templates, orderId, paymentId, licenseKey)
      == PayLine(PaidAll(purchases, u, done, templates, orderId, paymentId, licenseKey), u, t, templates[t].listing.price, orderId, paymentId, licenseKey((u, t)))
  {
    var before := PaidAll(purchases, u, done, templates, orderId, paymentId, licenseKey);
    var after := PaidAll(purchases, u, done + {t}, templates, orderId, paymentId, licenseKey);
    var stepped := PayLine(before, u, t, templates[t].listing.price, orderId, paymentId, licenseKey((u, t)));
    assert after.Keys == stepped.Keys;
    forall k | k in after
      ensures after[k] == stepped[k]
    {
      if k != (u, t) {
        assert k in before;
      }
    }
  }

  /**
   * What `verify_payment` promises about the purchase table: each of user
   * `u`'s purchases of a template in `bought` exists, is paid and carries the
   * given order and payment ids; one that already existed keeps its amount
   * and license key, a new one charges the template's price under its fresh
   * key; every other purchase is unchanged, and no other row appears.
   */
  lemma PaidAllFinalizes(purchases: map<(UserId, TemplateId), Purchase>, u: UserId, bought: set<TemplateId>, templates: map<TemplateId, Template>,
    orderId: string, paymentId: string, licenseKey: LicenseGenerator)
    requires bought <= templates.Keys
    ensures var r := PaidAll(purchases, u, bought, templates, orderId, paymentId, licenseKey);
      && (forall k :: k in r <==> k in purchases || (k.0 == u && k.1 in bought))
      && (forall k :: k in purchases && !(k.0 == u && k.1 in bought) ==> r[k] == purchases[k])
      && (forall t :: t in bought ==>
            && (u, t) in r && r[(u, t)].paid && r[(u, t)].orderId == orderId && r[(u, t)].paymentId == paymentId
            && ((u, t) in purchases ==> r[(u, t)].amount == purchases[(u, t)].amount && r[(u, t)].licenseKey == purchases[(u, t)].licenseKey)
            && ((u, t) !in purchases ==> r[(u, t)].amount == Some(templates[t].listing.price) && r[(u, t)].licenseKey == licenseKey((u, t))))
  {
    var r := PaidAll(purchases, u, bought, templates, orderId, paymentId, licenseKey);
    forall t | t in bought
      ensures (u, t) in r
    {
      assert (u, t) in PurchaseKeys(u, bought);
    }
  }

  /** A catalog that gains downloads stays valid and keeps its keys. */
  lemma CatalogBumpDownloads(templates: map<TemplateId, Template>, slugify: string -> string, bought: set<TemplateId>)
    requires CatalogValid(templates, slugify)
    ensures CatalogValid(BumpDownloads(templates, bought), slugify)
  {
    var r := BumpDownloads(templates, bought);
    assert forall t :: t in r ==> r[t].listing == templates[t].listing;
  }

  /**
   * `verify_payment`'s loop has handled every template of `bought` except
   * those in `rest`: their purchases are finalized as `PaidEntry` says,
   * every other purchase is as it was.
   */
  ghost predicate PaidSoFar(purchases: map<(UserId, TemplateId), Purchase>, templates: map<TemplateId, Template>, u: UserId,
    bought: set<TemplateId>, rest: set<TemplateId>, orderId: string, paymentId: string, licenseKey: LicenseGenerator,
    paid: map<(UserId, TemplateId), Purchase>)
    requires bought <= templates.Keys
  {
    && (forall k :: k in paid <==> k in purchases || (k.0 == u && k.1 in bought && k.1 !in rest))
    && (forall k :: k in paid ==>
          paid[k] == if k.0 == u && k.1 in bought && k.1 !in rest then PaidEntry(purchases, k, templates, orderId, paymentId, licenseKey) else purchases[k])
  }

  /** Every template of `bought` except those in `rest` has gained its download, and nothing else has changed. */
  ghost predicate BumpedSoFar(templates: map<TemplateId, Template>, bought: set<TemplateId>, rest: set<TemplateId>, bumped: map<TemplateId, Template>)
  {
    && bumped.Keys == templates.Keys
    && (forall x :: x in bumped ==> bumped[x] == if x in bought && x !in rest then AddDownload(templates[x]) else templates[x])
  }

  /** One iteration of `verify_payment`'s loop, on cart template `t`, handles exactly `t`. */
  lemma PayForCartStep(purchases: map<(UserId, TemplateId), Purchase>, templates: map<TemplateId, Template>, u: UserId,
    bought: set<TemplateId>, rest: set<TemplateId>, orderId: string, paymentId: string, licenseKey: LicenseGenerator,
    paid: map<(UserId, TemplateId), Purchase>, bumped: map<TemplateId, Template>, t: TemplateId)
    requires bought <= templates.Keys && rest <= bought && t in rest
    requires PaidSoFar(purchases, templates, u, bought, rest, orderId, paymentId, licenseKey, paid)
    requires BumpedSoFar(templates, bought, rest, bumped)
    ensures PaidSoFar(purchases, templates, u, bought, rest - {t}, orderId, paymentId, licenseKey,
      PayLine(paid, u, t, templates[t].listing.price, orderId, paymentId, licenseKey((u, t))))
    ensures BumpedSoFar(templates, bought, rest - {t}, bumped[t := AddDownload(bumped[t])])
  {
  }

  /**
   * The loop of `verify_payment` over user `u`'s cart rows, one template at a
   * time in whatever order the rows come: each purchase is created or
   * updated as `PayLine` does, at the price of the template row the cart
   * query loaded, and the template gains one download. The result does not
   * depend on the order.
   */
  method PayForCart(purchases: map<(UserId, TemplateId), Purchase>, templates: map<TemplateId, Template>, u: UserId, bought: set<TemplateId>,
    orderId: string, paymentId: string, licenseKey: LicenseGenerator)
    returns (paid: map<(UserId, TemplateId), Purchase>, bumped: map<TemplateId, Template>)
    requires bought <= templates.Keys
    ensures paid == PaidAll(purchases, u, bought, templates, orderId, paymentId, licenseKey)
    ensures bumped == BumpDownloads(templates, bought)
  {
    paid, bumped := purchases, templates;
    var rest := bought;
    while rest != {}
      invariant rest <= bought
      invariant PaidSoFar(purchases, templates, u, bought, rest, orderId, paymentId, licenseKey, paid)
      invariant BumpedSoFar(templates, bought, rest, bumped)
      decreases |rest|
    {
      var t :| t in rest;
      PayForCartStep(purchases, templates, u, bought, rest, orderId, paymentId, licenseKey, paid, bumped, t);
      paid := PayLine(paid, u, t, templates[t].listing.price, orderId, paymentId, licenseKey((u, t)));
      bumped := bumped[t := AddDownload(bumped[t])];
      rest := rest - {t};
    }
    PaidAllPointwise(purchases, u, bought, templates, orderId, paymentId, licenseKey, paid);
  }

  /**
   * The tables once a verified payment of user `u` is committed: the
   * purchases of the cart templates are finalized (`PaidAll`), each of those
   * templates gains one download, the user's cart rows are deleted, and no
   * other table changes.
   */
  function PaymentCommitted(db: Tables, u: UserId, orderId: string, paymentId: string, licenseKey: LicenseGenerator): (r: Tables)
    requires CartRefersTo(db.cart, db.templates.Keys)
    ensures CartTemplates(r.cart, u) == {}
    ensures r.templates.Keys == db.templates.Keys && CartRefersTo(r.cart, r.templates.Keys)
  {
    var bought := CartTemplates(db.cart, u);
    db.(templates := BumpDownloads(db.templates, bought),
        cart := ClearUserCart(db.cart, u),
        purchases := PaidAll(db.purchases, u, bought, db.templates, orderId, paymentId, licenseKey))
  }

  /**
   * The cart is cleared only after the loop, so a retry of the same
   * verification, or any later verified payment without a new cart, finds
   * nothing to buy and changes no table.
   */
  lemma PaymentRetryChangesNothing(db: Tables, u: UserId, orderId: string, paymentId: string, licenseKey: LicenseGenerator,
    retryOrderId: string, retryPaymentId: string)
    requires CartRefersTo(db.cart, db.templates.Keys)
    ensures var after := PaymentCommitted(db, u, orderId, paymentId, licenseKey);
      PaymentCommitted(after, u, retryOrderId, retryPaymentId, licenseKey) == after
  {
    var after := PaymentCommitted(db, u, orderId, paymentId, licenseKey);
    PaidAllEmpty(after.purchases, u, after.templates, retryOrderId, retryPaymentId, licenseKey);
    assert ClearUserCart(after.cart, u) == after.cart;
    assert BumpDownloads(after.templates, {}) == after.templates;
  }

  /** A committed payment keeps the store's invariant. */
  lemma PaymentPreservesInvariant(db: Tables, slugify: string -> string, licenseKey: LicenseGenerator, u: UserId, orderId: string, paymentId: string)
    requires StoreInvariant(db, slugify, licenseKey)
    ensures StoreInvariant(PaymentCommitted(db, u, orderId, paymentId, licenseKey), slugify, licenseKey)
  {
    var bought := CartTemplates(db.cart, u);
    var after := PaymentCommitted(db, u, orderId, paymentId, licenseKey);
    CatalogBumpDownloads(db.templates, slugify, bought);
    PaidAllKeepsLicenses(db.purchases, u, bought, db.templates, orderId, paymentId, licenseKey);
    PaidAllRefersTo(db.purchases, u, bought, db.templates, orderId, paymentId, licenseKey);
    assert after.templates.Keys == db.templates.Keys;
    assert CartRefersTo(after.cart, after.templates.Keys);
  }

  /**
   * A verified payment opens the paid-purchase gate of downloads and reviews
   * for every cart template, and closes none that was open.
   */
  lemma PaidAllOpensGates(purchases: map<(UserId, TemplateId), Purchase>, u: UserId, bought: set<TemplateId>, templates: map<TemplateId, Template>,
    orderId: string, paymentId: string, licenseKey: LicenseGenerator)
    requires bought <= templates.Keys
    ensures var r := PaidAll(purchases, u, bought, templates, orderId, paymentId, licenseKey);
      && (forall t :: t in bought ==> HasPaidPurchase(r, u, t))
      && (forall v, s :: HasPaidPurchase(purchases, v, s) ==> HasPaidPurchase(r, v, s))
  {
    PaidAllFinalizes(purchases, u, bought, templates, orderId, paymentId, licenseKey);
  }

  /** Finalizing purchases keeps every row's license key the one it was issued. */
  lemma PaidAllKeepsLicenses(purchases: map<(UserId, TemplateId), Purchase>, u: UserId, bought: set<TemplateId>, templates: map<TemplateId, Template>,
    orderId: string, paymentId: string, licenseKey: LicenseGenerator)
    requires bought <= templates.Keys
    requires LicensesIssued(purchases, licenseKey)
    ensures LicensesIssued(PaidAll(purchases, u, bought, templates, orderId, paymentId, licenseKey), licenseKey)
  {
    PaidAllFinalizes(purchases, u, bought, templates, orderId, paymentId, licenseKey);
  }

  /** Finalizing purchases of catalog templates adds no row outside the catalog. */
  lemma PaidAllRefersTo(purchases: map<(UserId, TemplateId), Purchase>, u: UserId, bought: set<TemplateId>, templates: map<TemplateId, Template>,
    orderId: string, paymentId: string, licenseKey: LicenseGenerator)
    requires bought <= templates.Keys
    requires forall k :: k in purchases ==> k.1 in templates
    ensures forall k :: k in PaidAll(purchases, u, bought, templates, orderId, paymentId, licenseKey) ==> k.1 in templates
  {
    PaidAllFinalizes(purchases, u, bought, templates, orderId, paymentId, licenseKey);
  }

  /** Every catalog row has been through `Template.save`, and no two rows share a slug. */
  ghost predicate CatalogValid(templates: map<TemplateId, Template>, slugify: string -> string)
  {
    && (forall t :: t in templates ==> IsSaved(templates[t].listing, slugify))
    && SlugsUnique(templates)
  }

  /** Changing only the counters of one catalog row keeps the catalog valid and its keys unchanged. */
  lemma CatalogStatsUpdate(templates: map<TemplateId, Template>, slugify: string -> string, t: TemplateId, row: Template)
    requires CatalogValid(templates, slugify) && t in templates
    requires row.listing == templates[t].listing
    ensures CatalogValid(templates[t := row], slugify)
    ensures templates[t := row].Keys == templates.Keys
  {
  }

  /** Slugs are unique across the catalog (the column is declared `unique=True`). */
  ghost predicate SlugsUnique(templates: map<TemplateId, Template>)
  {
    forall t1, t2 {:trigger templates[t1].listing.slug, templates[t2].listing.slug} :: t1 in templates && t2 in templates && t1 != t2 ==> templates[t1].listing.slug != templates[t2].listing.slug
  }

  /** Whether `t` is a published template whose slug is `slug`. */
  predicate PublishedWithSlug(templates: map<TemplateId, Template>, t: TemplateId, slug: string)
  {
    t in templates && templates[t].listing.slug == slug && templates[t].listing.isPublished
  }

  /**
   * `get_object_or_404(Template, slug=slug, is_published=True)`: the
   * published template with this slug, or None (the 404). Because slugs are
   * unique the match is the only one.
   */
  function FindPublished(templates: map<TemplateId, Template>, slug: string): (r: Option<TemplateId>)
    requires SlugsUnique(templates)
    ensures r.None? <==> !exists t :: PublishedWithSlug(templates, t, slug)
    ensures r.Some? ==> PublishedWithSlug(templates, r.value, slug)
    ensures r.Some? ==> forall t :: PublishedWithSlug(templates, t, slug) ==> t == r.value
  {
    if exists t :: t in templates && PublishedWithSlug(templates, t, slug) then
      var t :| t in templates && PublishedWithSlug(templates, t, slug);
      Some(t)
    else
      None
  }

  /** The catalog after `template.views += 1` on template `t`: its views grow by one and nothing else changes. */
  function CountView(templates: map<TemplateId, Template>, t: TemplateId): (r: map<TemplateId, Template>)
    requires t in templates
    ensures r.Keys == templates.Keys
    ensures r[t].listing == templates[t].listing
    ensures r[t].counters == templates[t].counters.(views := templates[t].counters.views + 1)
    ensures forall x :: x in templates && x != t ==> r[x] == templates[x]
  {
    templates[t := templates[t].(counters := templates[t].counters.(views := templates[t].counters.views + 1))]
  }

  /**
   * The analytics table after a view of `t` on `day`: the (template, day)
   * bucket is created with zero counters when missing, its views grow by one,
   * and every other bucket and counter is unchanged.
   */
  function RecordView(analytics: map<(TemplateId, Day), Analytics>, t: TemplateId, day: Day): (r: map<(TemplateId, Day), Analytics>)
    ensures r.Keys == analytics.Keys + {(t, day)}
    ensures (t, day) in analytics ==> r[(t, day)] == analytics[(t, day)].(views := analytics[(t, day)].views + 1)
    ensures (t, day) !in analytics ==> r[(t, day)] == NewAnalytics.(views := 1)
    ensures forall k :: k in analytics && k != (t, day) ==> r[k] == analytics[k]
  {
    var bucket := if (t, day) in analytics then analytics[(t, day)] else NewAnalytics;
    analytics[(t, day) := bucket.(views := bucket.views + 1)]
  }

  /** Counting a view keeps the catalog valid. */
  lemma CountViewValid(templates: map<TemplateId, Template>, slugify: string -> string, t: TemplateId)
    requires CatalogValid(templates, slugify) && t in templates
    ensures CatalogValid(CountView(templates, t), slugify)
  {
    CatalogStatsUpdate(templates, slugify, t, CountView(templates, t)[t]);
  }

  /** The tables of the marketplace's database that the core reads or writes, each keyed by its unique constraint. */
  datatype Tables = Tables(
    templates: map<TemplateId, Template>,
    cart: map<(UserId, TemplateId), int>,
    purchases: map<(UserId, TemplateId), Purchase>,
    reviews: map<(TemplateId, UserId), Review>,
    wishlist: set<(UserId, TemplateId)>,
    analytics: map<(TemplateId, Day), Analytics>,
    /** The source of fresh review ids (the auto-increment primary key). */
    nextReviewId: ReviewId)

  /**
   * The store's invariant on the tables: every row refers to a catalog
   * template, every catalog row has been through `Template.save`, slugs are
   * unique, every purchase keeps the license key it was issued and review
   * ids are unique.
   */
  ghost predicate StoreInvariant(db: Tables, slugify: string -> string, licenseKey: LicenseGenerator)
  {
    && RowsReferTo(db.templates.Keys, db.cart, db.purchases, db.reviews, db.wishlist, db.analytics)
    && CatalogValid(db.templates, slugify)
    && LicensesIssued(db.purchases, licenseKey)
    && ReviewIdsUnique(db.reviews, db.nextReviewId)
  }

  /** A form value counts as given when it is present and not empty, as Python's truthiness has it. */
  predicate Present(v: Option<string>)
  {
    v.Some? && v.value != ""
  }

  /**
   * The early exits of `verify_payment`, in the order the view takes them:
   * a non-POST request, a missing field, a missing client (its attribute
   * lookup raises), a signature the gateway rejects. None means the
   * verification passed.
   */
  function VerifyGate(gateway: Gateway, httpMethod: HttpMethod, paymentId: Option<string>, orderId: Option<string>, signature: Option<string>): (r: Option<VerifyResponse>)
    ensures r.None? <==>
      httpMethod == Post && Present(paymentId) && Present(orderId) && Present(signature) && gateway.configured
      && gateway.verifySignature(paymentId.value, orderId.value, signature.value)
    ensures httpMethod != Post ==> r == Some(MethodNotAllowed)
    ensures httpMethod == Post && !(Present(paymentId) && Present(orderId) && Present(signature)) ==> r == Some(MissingData)
    ensures httpMethod == Post && Present(paymentId) && Present(orderId) && Present(signature) && !gateway.configured ==>
      r == Some(PaymentFailed(ClientMissing))
    ensures httpMethod == Post && Present(paymentId) && Present(orderId) && Present(signature) && gateway.configured ==>
      (!gateway.verifySignature(paymentId.value, orderId.value, signature.value) <==> r == Some(PaymentFailed(SignatureInvalid)))
    ensures r.Some? ==> !r.value.PaymentSucceeded?
  {
    if httpMethod != Post then Some(MethodNotAllowed)
    else if !(Present(paymentId) && Present(orderId) && Present(signature)) then Some(MissingData)
    else if !gateway.configured then Some(PaymentFailed(ClientMissing))
    else if !gateway.verifySignature(paymentId.value, orderId.value, signature.value) then Some(PaymentFailed(SignatureInvalid))
    else None
  }

  /** The reviewers of template `t`. */
  function ReviewersOf(reviews: map<(TemplateId, UserId), Review>, t: TemplateId): (r: set<UserId>)
    ensures forall u :: u in r <==> (t, u) in reviews
  {
    set k | k in reviews && k.0 == t :: k.1
  }

  /** The ratings of template `t`'s reviews, by reviewer. */
  function RatingsOf(reviews: map<(TemplateId, UserId), Review>, t: TemplateId): (r: map<UserId, int>)
    ensures r.Keys == ReviewersOf(reviews, t)
    ensures forall u :: u in r ==> r[u] == reviews[(t, u)].rating
  {
    map u | u in ReviewersOf(reviews, t) :: reviews[(t, u)].rating
  }

  /** `Avg('rating')` over template `t`'s reviews, as an exact quotient. */
  ghost function AverageRating(reviews: map<(TemplateId, UserId), Review>, t: TemplateId): real
    requires ReviewersOf(reviews, t) != {}
  {
    SumValues(RatingsOf(reviews, t)) as real / |RatingsOf(reviews, t)| as real
  }

  /** An average of ratings that each lie in [lo, hi] lies in [lo, hi]. */
  lemma AverageRatingInRange(reviews: map<(TemplateId, UserId), Review>, t: TemplateId, lo: int, hi: int)
    requires ReviewersOf(reviews, t) != {}
    requires forall u :: u in ReviewersOf(reviews, t) ==> lo <= reviews[(t, u)].rating <= hi
    ensures lo as real <= AverageRating(reviews, t) <= hi as real
  {
    var m := RatingsOf(reviews, t);
    SumValuesBounds(m, lo, hi);
    QuotientBounds(SumValues(m), |m|, lo, hi);
  }

  /** A quotient by a positive count keeps bounds that hold of the dividend scaled by the count. */
  lemma QuotientBounds(s: int, n: nat, lo: int, hi: int)
    requires n > 0 && lo * n <= s <= hi * n
    ensures lo as real <= s as real / n as real <= hi as real
  {
    var q := s as real / n as real;
    assert q * n as real == s as real;
    assert (lo * n) as real == lo as real * n as real;
    assert (hi * n) as real == hi as real * n as real;
  }

  /**
   * The catalog after `update_rating` on template `t`: with reviews, the
   * rating becomes their average and `total_reviews` their count; with none,
   * nothing changes (the rating is not reset).
   */
  ghost function RatingUpdated(templates: map<TemplateId, Template>, reviews: map<(TemplateId, UserId), Review>, t: TemplateId): map<TemplateId, Template>
    requires t in templates
  {
    if ReviewersOf(reviews, t) == {} then templates
    else templates[t := templates[t].(counters := templates[t].counters.(rating := AverageRating(reviews, t), totalReviews := |ReviewersOf(reviews, t)|))]
  }

  /**
   * `Template.update_rating` on the tables' values: with reviews, template
   * `t`'s rating becomes their average and `total_reviews` their count, and
   * the row goes through `save`, which leaves a saved row as it is.
   */
  method RecomputeRating(templates: map<TemplateId, Template>, reviews: map<(TemplateId, UserId), Review>, t: TemplateId, slugify: string -> string)
    returns (r: map<TemplateId, Template>)
    requires t in templates && IsSaved(templates[t].listing, slugify)
    ensures r == RatingUpdated(templates, reviews, t)
  {
    var ratings := RatingsOf(reviews, t);
    if ratings == map[] {
      return templates;
    }
    var sum := Sum(ratings);
    var row := templates[t];
    var updated := row.(counters := row.counters.(rating := sum as real / |ratings| as real, totalReviews := |ratings|));
    IsSavedIsFixpoint(row.listing, slugify);
    var saved := Save(updated.listing, slugify);
    r := templates[t := updated.(listing := saved.listing)];
  }

  /** Recomputing a rating keeps the catalog valid. */
  lemma RatingUpdatedValid(templates: map<TemplateId, Template>, reviews: map<(TemplateId, UserId), Review>, t: TemplateId, slugify: string -> string)
    requires CatalogValid(templates, slugify) && t in templates
    ensures CatalogValid(RatingUpdated(templates, reviews, t), slugify)
  {
    if ReviewersOf(reviews, t) != {} {
      CatalogStatsUpdate(templates, slugify, t, RatingUpdated(templates, reviews, t)[t]);
    }
  }

  /**
   * `Review.objects.update_or_create(template=t, user=u, defaults=...)`:
   * the single (template, user) review takes the new rating and comment,
   * keeping its id when it exists and receiving `nextId` when it is created;
   * no other review changes.
   */
  function UpsertReview(reviews: map<(TemplateId, UserId), Review>, t: TemplateId, u: UserId, nextId: ReviewId, rating: int, comment: string)
    : (r: map<(TemplateId, UserId), Review>)
    ensures r.Keys == reviews.Keys + {(t, u)}
    ensures r[(t, u)].rating == rating && r[(t, u)].comment == comment
    ensures r[(t, u)].id == if (t, u) in reviews then reviews[(t, u)].id else nextId
    ensures forall k :: k in reviews && k != (t, u) ==> r[k] == reviews[k]
  {
    var id := if (t, u) in reviews then reviews[(t, u)].id else nextId;
    reviews[(t, u) := Review(id, rating, comment)]
  }

  /** An update keeps the ids; a creation uses the next id and advances it, so ids stay unique. */
  lemma UpsertKeepsIdsUnique(reviews: map<(TemplateId, UserId), Review>, next: nat, t: TemplateId, u: UserId, rating: int, comment: string)
    requires ReviewIdsUnique(reviews, next)
    ensures ReviewIdsUnique(UpsertReview(reviews, t, u, next, rating, comment), if (t, u) in reviews then next else next + 1)
  {
    var r := UpsertReview(reviews, t, u, next, rating, comment);
    forall k1, k2 | k1 in r && k2 in r && k1 != k2
      ensures r[k1].id != r[k2].id
    {
      if k1 != (t, u) && k2 != (t, u) {
        assert r[k1] == reviews[k1] && r[k2] == reviews[k2];
      }
    }
  }

  /**
   * `get_object_or_404(Review, id=id, user=u)`: the key of user `u`'s review
   * with this id, or None (the 404). Review ids are unique, so the match is
   * the only one.
   */
  function FindOwnReview(reviews: map<(TemplateId, UserId), Review>, u: UserId, id: ReviewId): (r: Option<(TemplateId, UserId)>)
    requires ReviewIdsDistinct(reviews)
    ensures r.None? <==> !exists k :: k in reviews && k.1 == u && reviews[k].id == id
    ensures r.Some? ==> r.value in reviews && r.value.1 == u && reviews[r.value].id == id
    ensures r.Some? ==> forall k :: k in reviews && reviews[k].id == id ==> k == r.value
  {
    if exists k :: k in reviews && k.1 == u && reviews[k].id == id then
      var k :| k in reviews && k.1 == u && reviews[k].id == id;
      Some(k)
    else
      None
  }

  /** Deleting a review keeps ids unique. */
  lemma DeleteKeepsIdsUnique(reviews: map<(TemplateId, UserId), Review>, next: nat, k: (TemplateId, UserId))
    requires ReviewIdsUnique(reviews, next)
    ensures ReviewIdsUnique(reviews - {k}, next)
  {
    var r := reviews - {k};
    forall k1, k2 | k1 in r && k2 in r && k1 != k2
      ensures r[k1].id != r[k2].id
    {
      assert r[k1] == reviews[k1] && r[k2] == reviews[k2];
    }
  }

  /** The rating `add_review` stores: the submitted integer, 5 when the field is absent. */
  function SubmittedRating(field: RatingField): (r: Option<int>)
    ensures field.RatingAbsent? ==> r == Some(5)
    ensures field.RatingInt? ==> r == Some(field.n)
    ensures field.RatingNotAnInt? ==> r.None?
  {
    match field
    case RatingAbsent => Some(5)
    case RatingInt(n) => Some(n)
    case RatingNotAnInt => None
  }

  // ---------------------------------------------------------------------------
  // The store
  // ---------------------------------------------------------------------------

  class Marketplace {
    const gateway: Gateway
    /** Django's `slugify`, which the model does not reimplement. */
    const slugify: string -> string
    /** The license key each new purchase row receives. */
    const licenseKey: LicenseGenerator
    /** The database. */
    var db: Tables

    /** The store's invariant, license keys never repeat, and a built client had its key setting. */
    ghost predicate Valid()
      reads this
    {
      StoreInvariant(db, slugify, licenseKey) && Injective(licenseKey) && (gateway.configured ==> gateway.keyId.Some?)
    }

    /** A store over a saved catalog with unique slugs and empty carts, purchases, reviews, wishlists and analytics. */
    constructor (gateway: Gateway, slugify: string -> string, licenseKey: LicenseGenerator, catalog: map<TemplateId, Template>)
      requires Injective(licenseKey)
      requires gateway.configured ==> gateway.keyId.Some?
      requires forall t :: t in catalog ==> IsSaved(catalog[t].listing, slugify)
      requires SlugsUnique(catalog)
      ensures Valid()
      ensures this.gateway == gateway && this.slugify == slugify && this.licenseKey == licenseKey
      ensures db == Tables(catalog, map[], map[], map[], {}, map[], 0)
    {
      this.gateway := gateway;
      this.slugify := slugify;
      this.licenseKey := licenseKey;
      db := Tables(catalog, map[], map[], map[], {}, map[], 0);
    }

    // -------------------------------------------------------------------------
    // Cart
    // -------------------------------------------------------------------------

    /**
     * `add_to_cart`: refuses a template the user already owns, otherwise
     * `get_or_create`s the (user, template) row with quantity 1, reporting
     * whether it was created. A second call finds the row and changes nothing.
     */
    method AddToCart(u: UserId, t: TemplateId) returns (r: CartAddResult)
      requires Valid()
      modifies this`db
      ensures Valid()
      ensures t !in old(db).templates ==> r == CartTemplateNotFound && db == old(db)
      ensures t in old(db).templates && HasPaidPurchase(old(db).purchases, u, t) ==> r == AlreadyOwned && db == old(db)
      ensures t in old(db).templates && !HasPaidPurchase(old(db).purchases, u, t) && (u, t) in old(db).cart ==>
        r == AlreadyInCart && db == old(db)
      ensures t in old(db).templates && !HasPaidPurchase(old(db).purchases, u, t) && (u, t) !in old(db).cart ==>
        r == AddedToCart && db == old(db).(cart := old(db).cart[(u, t) := 1])
    {
      if t !in db.templates {
        return CartTemplateNotFound;
      }
      if HasPaidPurchase(db.purchases, u, t) {
        return AlreadyOwned;
      }
      if (u, t) in db.cart {
        r := AlreadyInCart;
      } else {
        db := db.(cart := db.cart[(u, t) := 1]);
        r := AddedToCart;
      }
    }

    /** `remove_from_cart`: deletes exactly the (user, template) row, and succeeds when there is none. */
    method RemoveFromCart(u: UserId, t: TemplateId)
      requires Valid()
      modifies this`db
      ensures Valid()
      ensures db == old(db).(cart := old(db).cart - {(u, t)})
    {
      db := db.(cart := db.cart - {(u, t)});
    }

    /** The cart total: `sum(item.get_total() for item in cart_items)`. */
    method CartTotal(u: UserId) returns (total: Paise)
      requires Valid()
      ensures total == CartTotalOf(db.cart, db.templates, u)
    {
      var lines := CartLines(db.cart, db.templates, u);
      total := Sum(lines);
    }

    /** `cart_view`: the user's cart templates, their total and their count. */
    method CartView(u: UserId) returns (items: set<TemplateId>, total: Paise, count: nat)
      requires Valid()
      ensures forall t :: t in items <==> (u, t) in db.cart
      ensures total == CartTotalOf(db.cart, db.templates, u)
      ensures count == |items|
    {
      items := CartTemplates(db.cart, u);
      total := CartTotal(u);
      count := |items|;
    }

    /**
     * `checkout`: an empty cart sends the user back; otherwise the page shows
     * the cart total and the gateway key, and an undefined key setting is a
     * server error.
     */
    method Checkout(u: UserId) returns (r: CheckoutResult)
      requires Valid()
      ensures r == CheckoutCartEmpty <==> CartTemplates(db.cart, u) == {}
      ensures r == CheckoutKeyMissing <==> CartTemplates(db.cart, u) != {} && gateway.keyId.None?
      ensures r.CheckoutPage? ==> r.checkoutTotal == CartTotalOf(db.cart, db.templates, u) && Some(r.razorpayKey) == gateway.keyId
    {
      if CartTemplates(db.cart, u) == {} {
        return CheckoutCartEmpty;
      }
      var total := CartTotal(u);
      if gateway.keyId.None? {
        return CheckoutKeyMissing;
      }
      r := CheckoutPage(total, gateway.keyId.value);
    }

    // -------------------------------------------------------------------------
    // Checkout and payment
    // -------------------------------------------------------------------------

    /**
     * `create_order`: an empty cart is refused before the gateway is
     * consulted. Otherwise the gateway is asked for an order of the cart
     * total, in paise; the reply lists every cart template exactly once. No
     * table changes.
     */
    method CreateOrder(u: UserId) returns (r: OrderResult)
      requires Valid()
      ensures CartTemplates(db.cart, u) == {} <==> r == EmptyCart
      ensures CartTemplates(db.cart, u) != {} && !gateway.configured ==> r == GatewayNotConfigured
      ensures CartTemplates(db.cart, u) != {} && gateway.configured ==>
        match gateway.createRemoteOrder(CartTotalOf(db.cart, db.templates, u), Currency)
        case None => r == GatewayRaised
        case Some(id) => r.OrderCreated? && r.orderId == id
      ensures r.OrderCreated? ==>
        && r.amount == CartTotalOf(db.cart, db.templates, u)
        && (forall t :: t in r.templateIds <==> (u, t) in db.cart)
        && (forall i, j :: 0 <= i < j < |r.templateIds| ==> r.templateIds[i] != r.templateIds[j])
    {
      var inCart := CartTemplates(db.cart, u);
      if inCart == {} {
        return EmptyCart;
      }
      var amountPaise := CartTotal(u);
      if !gateway.configured {
        return GatewayNotConfigured;
      }
      var remote := gateway.createRemoteOrder(amountPaise, Currency);
      if remote.None? {
        return GatewayRaised;
      }
      var ids := ValuesList(inCart);
      r := OrderCreated(remote.value, amountPaise, ids);
    }

    /**
     * `verify_payment`, the central transition. Any early exit of
     * `VerifyGate` leaves every table as it was. On a verified payment the
     * tables become `PaymentCommitted`: every template in the user's current
     * cart ends with a paid purchase carrying the given ids, each of those
     * templates gains exactly one download whether or not its purchase
     * existed, the user's cart is emptied, and nothing else changes; the
     * analytics table is never touched.
     *
     * The response is the corrected one, a redirect to the registered
     * `purchase_success` route. As written, the view reverses an unregistered
     * name after the tables are committed, so the same committed tables come
     * with `PaymentFailed(NoReverseMatch)` (`AsWrittenSuccessIsReportedAsFailure`).
     */
    method VerifyPayment(u: UserId, httpMethod: HttpMethod, paymentId: Option<string>, orderId: Option<string>, signature: Option<string>)
      returns (r: VerifyResponse)
      requires Valid()
      modifies this`db
      ensures Valid()
      ensures VerifyGate(gateway, httpMethod, paymentId, orderId, signature).Some? ==>
        r == VerifyGate(gateway, httpMethod, paymentId, orderId, signature).value && db == old(db)
      ensures VerifyGate(gateway, httpMethod, paymentId, orderId, signature).None? ==>
        && r == PaymentSucceeded("/purchase-success/")
        && db == PaymentCommitted(old(db), u, orderId.value, paymentId.value, licenseKey)
    {
      var gate := VerifyGate(gateway, httpMethod, paymentId, orderId, signature);
      if gate.Some? {
        return gate.value;
      }
      var pid, oid := paymentId.value, orderId.value;
      var bought := CartTemplates(db.cart, u);
      var paid, bumped := PayForCart(db.purchases, db.templates, u, bought, oid, pid, licenseKey);
      PaymentPreservesInvariant(db, slugify, licenseKey, u, oid, pid);
      db := db.(templates := bumped, cart := ClearUserCart(db.cart, u), purchases := paid);
      CorrectedSuccessRedirects();
      r := SuccessResponse(PurchaseSuccessRoute);
    }

    // -------------------------------------------------------------------------
    // Download
    // -------------------------------------------------------------------------

    /**
     * `download_template`: refuses a user without a paid purchase; otherwise
     * serves the template's zip as `<slug>.zip`, or reports that there is no
     * file. Nothing changes.
     */
    method DownloadTemplate(u: UserId, t: TemplateId) returns (r: DownloadResult)
      requires Valid()
      ensures t !in db.templates <==> r == DownloadTemplateNotFound
      ensures t in db.templates ==> (r == DownloadPurchaseRequired <==> !HasPaidPurchase(db.purchases, u, t))
      ensures r.ServeZip? ==>
        HasPaidPurchase(db.purchases, u, t) && db.templates[t].listing.hasZipFile && r.fileName == db.templates[t].listing.slug + ".zip"
      ensures t in db.templates && HasPaidPurchase(db.purchases, u, t) ==> (r.ServeZip? <==> db.templates[t].listing.hasZipFile)
    {
      if t !in db.templates {
        return DownloadTemplateNotFound;
      }
      if !HasPaidPurchase(db.purchases, u, t) {
        return DownloadPurchaseRequired;
      }
      var row := db.templates[t];
      if row.listing.hasZipFile {
        r := ServeZip(row.listing.slug + ".zip");
      } else {
        r := FileNotAvailable;
      }
    }

    // -------------------------------------------------------------------------
    // Reviews
    // -------------------------------------------------------------------------

    /**
     * `Template.update_rating`: with reviews, the rating becomes their
     * average and `total_reviews` their count, and the row is saved; with
     * none, nothing changes.
     */
    method UpdateRating(t: TemplateId)
      requires Valid() && t in db.templates
      modifies this`db
      ensures Valid()
      ensures db == old(db).(templates := RatingUpdated(old(db).templates, old(db).reviews, t))
    {
      var updated := RecomputeRating(db.templates, db.reviews, t, slugify);
      RatingUpdatedValid(db.templates, db.reviews, t, slugify);
      db := db.(templates := updated);
    }

    /**
     * `add_review`: POST only; refuses a user without a paid purchase;
     * otherwise stores the submitted rating (5 when absent) and comment in
     * the single (template, user) review, creating it with a fresh id if
     * needed, and recomputes the template's rating.
     */
    method AddReview(u: UserId, httpMethod: HttpMethod, t: TemplateId, rating: RatingField, comment: string) returns (r: ReviewResult)
      requires Valid()
      modifies this`db
      ensures Valid()
      ensures !r.ReviewSubmitted? ==> db == old(db)
      ensures httpMethod != Post <==> r == ReviewMethodNotAllowed
      ensures httpMethod == Post ==> (t !in old(db).templates <==> r == ReviewTemplateNotFound)
      ensures httpMethod == Post && t in old(db).templates ==> (!HasPaidPurchase(old(db).purchases, u, t) <==> r == ReviewPurchaseRequired)
      ensures httpMethod == Post && t in old(db).templates && HasPaidPurchase(old(db).purchases, u, t) ==>
        (SubmittedRating(rating).None? <==> r == ReviewRatingInvalid)
      ensures r.ReviewSubmitted? ==>
        var reviews := UpsertReview(old(db).reviews, t, u, old(db).nextReviewId, SubmittedRating(rating).value, comment);
        && r.created == ((t, u) !in old(db).reviews)
        && db == old(db).(
             reviews := reviews,
             nextReviewId := if r.created then old(db).nextReviewId + 1 else old(db).nextReviewId,
             templates := RatingUpdated(old(db).templates, reviews, t))
    {
      if httpMethod != Post {
        return ReviewMethodNotAllowed;
      }
      if t !in db.templates {
        return ReviewTemplateNotFound;
      }
      if !HasPaidPurchase(db.purchases, u, t) {
        return ReviewPurchaseRequired;
      }
      var value := SubmittedRating(rating);
      if value.None? {
        return ReviewRatingInvalid;
      }
      var created := (t, u) !in db.reviews;
      UpsertKeepsIdsUnique(db.reviews, db.nextReviewId, t, u, value.value, comment);
      db := db.(
        reviews := UpsertReview(db.reviews, t, u, db.nextReviewId, value.value, comment),
        nextReviewId := if created then db.nextReviewId + 1 else db.nextReviewId);
      UpdateRating(t);
      r := ReviewSubmitted(created);
    }

    /**
     * `delete_review`: POST only; deletes the user's own review with the
     * given id (any other id is "not found") and recomputes the template's
     * rating, which stays as it was when no review remains.
     */
    method DeleteReview(u: UserId, httpMethod: HttpMethod, reviewId: ReviewId) returns (r: DeleteReviewResult)
      requires Valid()
      modifies this`db
      ensures Valid()
      ensures !r.ReviewDeleted? ==> db == old(db)
      ensures httpMethod != Post <==> r == DeleteMethodNotAllowed
      ensures httpMethod == Post ==> (r == ReviewNotFound <==> FindOwnReview(old(db).reviews, u, reviewId).None?)
      ensures r.ReviewDeleted? ==>
        var k := (r.ofTemplate, u);
        var reviews := old(db).reviews - {k};
        && FindOwnReview(old(db).reviews, u, reviewId) == Some(k)
        && db == old(db).(reviews := reviews, templates := RatingUpdated(old(db).templates, reviews, r.ofTemplate))
    {
      if httpMethod != Post {
        return DeleteMethodNotAllowed;
      }
      var found := FindOwnReview(db.reviews, u, reviewId);
      if found.None? {
        return ReviewNotFound;
      }
      var k := found.value;
      DeleteKeepsIdsUnique(db.reviews, db.nextReviewId, k);
      db := db.(reviews := db.reviews - {k});
      UpdateRating(k.0);
      r := ReviewDeleted(k.0);
    }

    // -------------------------------------------------------------------------
    // Wishlist
    // -------------------------------------------------------------------------

    /** `add_to_wishlist`: `get_or_create`s the (user, template) row, reporting whether it was created. */
    method AddToWishlist(u: UserId, t: TemplateId) returns (r: WishlistResult)
      requires Valid()
      modifies this`db
      ensures Valid()
      ensures t !in old(db).templates ==> r == WishlistTemplateNotFound && db == old(db)
      ensures t in old(db).templates ==> db == old(db).(wishlist := old(db).wishlist + {(u, t)})
      ensures t in old(db).templates ==> (r == AddedToWishlist <==> (u, t) !in old(db).wishlist)
      ensures t in old(db).templates ==> (r == AlreadyInWishlist <==> (u, t) in old(db).wishlist)
    {
      if t !in db.templates {
        return WishlistTemplateNotFound;
      }
      if (u, t) in db.wishlist {
        r := AlreadyInWishlist;
      } else {
        db := db.(wishlist := db.wishlist + {(u, t)});
        r := AddedToWishlist;
      }
    }

    /** `remove_from_wishlist`: deletes exactly the (user, template) row, and succeeds when there is none. */
    method RemoveFromWishlist(u: UserId, t: TemplateId)
      requires Valid()
      modifies this`db
      ensures Valid()
      ensures db == old(db).(wishlist := old(db).wishlist - {(u, t)})
    {
      db := db.(wishlist := db.wishlist - {(u, t)});
    }

    // -------------------------------------------------------------------------
    // Template detail
    // -------------------------------------------------------------------------

    /**
     * `template_detail`: finds the published template with the given slug,
     * adds one to its `views` and to the `views` of today's analytics bucket
     * (creating the bucket with zero counters), and reports the viewer's
     * purchase, cart, wishlist and review status. An unknown or unpublished
     * slug changes nothing.
     */
    method TemplateDetail(viewer: Option<UserId>, slug: string, today: Day) returns (r: DetailResult)
      requires Valid()
      modifies this`db
      ensures Valid()
      ensures r == DetailNotFound <==> FindPublished(old(db).templates, slug).None?
      ensures r == DetailNotFound ==> db == old(db)
      ensures r.DetailPage? ==>
        var t := r.template;
        && Some(t) == FindPublished(old(db).templates, slug)
        && db == old(db).(templates := CountView(old(db).templates, t), analytics := RecordView(old(db).analytics, t, today))
        && r.purchased == (viewer.Some? && HasPaidPurchase(db.purchases, viewer.value, t))
        && r.inCart == (viewer.Some? && (viewer.value, t) in db.cart)
        && r.inWishlist == (viewer.Some? && (viewer.value, t) in db.wishlist)
        && r.userReview == (if viewer.Some? && (t, viewer.value) in db.reviews then Some(db.reviews[(t, viewer.value)]) else None)
    {
      var found := FindPublished(db.templates, slug);
      if found.None? {
        return DetailNotFound;
      }
      var t := found.value;
      CountViewValid(db.templates, slugify, t);
      db := db.(templates := CountView(db.templates, t), analytics := RecordView(db.analytics, t, today));
      var purchased := viewer.Some? && HasPaidPurchase(db.purchases, viewer.value, t);
      var inCart := viewer.Some? && (viewer.value, t) in db.cart;
      var inWishlist := viewer.Some? && (viewer.value, t) in db.wishlist;
      var review := if viewer.Some? && (t, viewer.value) in db.reviews then Some(db.reviews[(t, viewer.value)]) else None;
      r := DetailPage(t, purchased, inCart, inWishlist, review);
    }
  }
}
