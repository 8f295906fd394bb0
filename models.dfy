/**
 * The rows of the marketplace's tables (marketplace/models.py) and the small
 * computations the model classes carry: a cart line's total, the discount
 * percentage, the defaults that `Template.save` fills in, a subscription's
 * download allowance and the default-image choice.
 *
 * Money is kept in integer paise. Every price column is a `Decimal` with two
 * decimal places, so a rupee amount times 100 is an exact integer.
 */
module Models {

  type UserId = nat
  type TemplateId = nat
  type ReviewId = nat
  /** A calendar day (the date part of the server clock). */
  type Day = int
  /** An amount of money in paise, 1/100 of a rupee. */
  type Paise = int

  datatype Option<T> = None | Some(value: T)

  /** The descriptive columns of a Template row: what the seller writes and `save` completes. */
  datatype Listing = Listing(
    name: string,
    slug: string,
    description: Option<string>,
    shortDescription: string,
    price: Paise,
    originalPrice: Option<Paise>,
    hasThumbnail: bool,
    hasFallbackImage: bool,
    hasZipFile: bool,
    isPublished: bool)

  /** The counter columns of a Template row, which the views update as the template is seen, bought and reviewed. */
  datatype Counters = Counters(views: int, downloads: int, rating: real, totalReviews: int)

  /** A row of the Template table, restricted to the columns the core reads or writes. */
  datatype Template = Template(listing: Listing, counters: Counters)

  /** A row of the Purchase table; the (user, template) pair is its key. */
  datatype Purchase = Purchase(
    orderId: string,
    paymentId: string,
    amount: Option<Paise>,
    paid: bool,
    licenseKey: nat)

  /** A row of the Review table; the (template, user) pair is its key. */
  datatype Review = Review(id: ReviewId, rating: int, comment: string)

  /** A row of the TemplateAnalytics table; the (template, day) pair is its key. */
  datatype Analytics = Analytics(
    views: int,
    uniqueViews: int,
    downloads: int,
    purchases: int,
    cartAdditions: int,
    revenue: Paise)

  /** The counters of a freshly created analytics bucket: every column defaults to 0. */
  const NewAnalytics: Analytics := Analytics(0, 0, 0, 0, 0, 0)

  /** A row of the Subscription table, restricted to the columns `can_download` reads. */
  datatype Subscription = Subscription(plan: string, downloadsLimit: int, downloadsUsed: int)

  const UnlimitedPlan: string := "unlimited"

  // ---------------------------------------------------------------------------
  // CartItem.get_total
  // ---------------------------------------------------------------------------

  /**
   * The total of one cart line: the template's current price times the
   * line's quantity. A line of quantity 1 costs exactly the price, and a
   * non-negative price and quantity never give a negative total.
   */
  function LineTotal(price: Paise, quantity: int): (r: Paise)
    ensures quantity == 0 ==> r == 0
    ensures quantity == 1 ==> r == price
    ensures price >= 0 && quantity >= 0 ==> r >= 0
  {
    price * quantity
  }

  // ---------------------------------------------------------------------------
  // Template.get_discount_percentage
  // ---------------------------------------------------------------------------

  /**
   * Integer division truncating toward zero, as Python's `int()` of an exact
   * quotient does, for either sign of the divisor: `q * b` lies between 0 and
   * `a`, and the remainder `a - q * b` is smaller than the divisor in
   * magnitude (and has the sign of `a`).
   */
  function TruncDiv(a: int, b: int): (q: int)
    requires b != 0
    ensures a >= 0 ==> 0 <= q * b <= a
    ensures a <= 0 ==> a <= q * b <= 0
    ensures -Abs(b) < a - q * b < Abs(b)
    ensures a >= 0 && b > 0 ==> q == a / b
    ensures a <= 0 && b > 0 ==> q == -((-a) / b)
  {
    TruncDivBracket(a, b);
    var m: int := Abs(a) / Abs(b);
    if (a >= 0) == (b > 0) then m else -m
  }

  /** The quotient truncated toward zero, with the magnitude `|a| / |b|` and the sign of `a * b`, brackets `a`. */
  lemma TruncDivBracket(a: int, b: int)
    requires b != 0
    ensures var m: int := Abs(a) / Abs(b);
      var q: int := if (a >= 0) == (b > 0) then m else -m;
      && (a >= 0 ==> 0 <= q * b <= a)
      && (a <= 0 ==> a <= q * b <= 0)
      && -Abs(b) < a - q * b < Abs(b)
  {
    var n: int, d: int := Abs(a), Abs(b);
    var m: int := n / d;
    assert 0 <= m * d <= n < m * d + d;
    var q: int := if (a >= 0) == (b > 0) then m else -m;
    if b > 0 {
      assert q * b == (if a >= 0 then m * d else -(m * d));
    } else {
      assert q * b == (if a >= 0 then m * d else -(m * d));
    }
  }

  function Abs(x: int): int
  {
    if x < 0 then -x else x
  }

  /** Whether `get_discount_percentage` computes a discount at all: the original price is set, non-zero and above the price. */
  predicate HasDiscount(price: Paise, originalPrice: Option<Paise>)
  {
    originalPrice.Some? && originalPrice.value != 0 && originalPrice.value > price
  }

  /**
   * The advertised discount, `int((original - price) / original * 100)`.
   * It is 0 unless there is a discount; when the price is not negative it is
   * the whole number of percent saved, rounded down, and so lies in 0..100.
   */
  function DiscountPercentage(price: Paise, originalPrice: Option<Paise>): (r: int)
    ensures !HasDiscount(price, originalPrice) ==> r == 0
    ensures price >= 0 ==> 0 <= r <= 100
    ensures price >= 0 && HasDiscount(price, originalPrice) ==>
      var o := originalPrice.value;
      r * o <= 100 * (o - price) < (r + 1) * o
  {
    if HasDiscount(price, originalPrice) then
      TruncDiv(100 * (originalPrice.value - price), originalPrice.value)
    else
      0
  }

  // ---------------------------------------------------------------------------
  // Template.save
  // ---------------------------------------------------------------------------

  const ShortDescriptionLimit: nat := 300
  const ShortDescriptionCut: nat := 297
  const Ellipsis: string := "..."

  /**
   * The outcome of `Template.save`'s defaulting: the completed row, or the
   * `TypeError` Python raises when the short description is empty and the
   * description is NULL (`len(None)`).
   */
  datatype SaveOutcome = Saved(listing: Listing) | DescriptionMissing

  /**
   * `Template.save` before it writes the row, on the listing columns (the
   * counters pass through untouched): an empty slug becomes `slugify(name)`,
   * and an empty short description becomes the description, cut to 297
   * characters plus "..." when it is longer than 300. Nothing else changes,
   * and a filled-in short description never exceeds 300 characters.
   */
  function Save(t: Listing, slugify: string -> string): (r: SaveOutcome)
    ensures r.DescriptionMissing? <==> t.shortDescription == "" && t.description.None?
    ensures r.Saved? ==> r.listing == t.(slug := r.listing.slug, shortDescription := r.listing.shortDescription)
    ensures r.Saved? ==> r.listing.slug == (if t.slug == "" then slugify(t.name) else t.slug)
    ensures r.Saved? && t.shortDescription != "" ==> r.listing.shortDescription == t.shortDescription
    ensures r.Saved? && t.shortDescription == "" ==>
      var d := t.description.value;
      var s := r.listing.shortDescription;
      && |s| <= ShortDescriptionLimit
      && (|d| <= ShortDescriptionLimit ==> s == d)
      && (|d| > ShortDescriptionLimit ==> |s| == ShortDescriptionLimit && s[..ShortDescriptionCut] == d[..ShortDescriptionCut] && s[ShortDescriptionCut..] == Ellipsis)
  {
    var slug := if t.slug == "" then slugify(t.name) else t.slug;
    if t.shortDescription != "" then
      Saved(t.(slug := slug))
    else if t.description.None? then
      DescriptionMissing
    else
      var d := t.description.value;
      var short := if |d| > ShortDescriptionLimit then d[..ShortDescriptionCut] + Ellipsis else d;
      Saved(t.(slug := slug, shortDescription := short))
  }

  /**
   * A row that `Template.save` leaves as it is, stated on its columns: its
   * slug is set (or the name slugifies to nothing) and its short description
   * is set (or the description is the empty text). Every row written through
   * `save` is one.
   */
  predicate IsSaved(t: Listing, slugify: string -> string)
  {
    && (t.slug != "" || slugify(t.name) == "")
    && (t.shortDescription != "" || t.description == Some(""))
  }

  /** `IsSaved` holds exactly of the rows that `Save` returns unchanged. */
  lemma IsSavedIsFixpoint(t: Listing, slugify: string -> string)
    ensures IsSaved(t, slugify) <==> Save(t, slugify) == Saved(t)
  {
    if t.shortDescription == "" && t.description.Some? && |t.description.value| > ShortDescriptionLimit {
      assert |Save(t, slugify).listing.shortDescription| == ShortDescriptionLimit;
    }
  }

  /** Saving twice is saving once: the defaults are filled in at most once. */
  lemma SaveIdempotent(t: Listing, slugify: string -> string)
    requires Save(t, slugify).Saved?
    ensures Save(Save(t, slugify).listing, slugify) == Save(t, slugify)
  {
  }

  // ---------------------------------------------------------------------------
  // Subscription.can_download
  // ---------------------------------------------------------------------------

  /** The `unlimited` plan can always download; any other plan only while it has used fewer downloads than its limit. */
  function CanDownload(s: Subscription): (r: bool)
    ensures s.plan == UnlimitedPlan ==> r
    ensures s.plan != UnlimitedPlan ==> (r <==> s.downloadsUsed < s.downloadsLimit)
  {
    s.plan == UnlimitedPlan || s.downloadsUsed < s.downloadsLimit
  }

  /** Using more downloads never restores the right to download. */
  lemma CanDownloadAntitone(s: Subscription, used: int)
    requires s.downloadsUsed <= used
    ensures CanDownload(s.(downloadsUsed := used)) ==> CanDownload(s)
  {
  }

  // ---------------------------------------------------------------------------
  // Template.get_display_image
  // ---------------------------------------------------------------------------

  /** The pool of stock images a template without its own picture is shown with. */
  const DefaultImages: seq<string> := [
    "https://images.unsplash.com/photo-1460925895917-afdab827c52f?w=800&h=600&fit=crop",
    "https://images.unsplash.com/photo-1483058712412-4245e9b90334?w=800&h=600&fit=crop",
    "https://images.unsplash.com/photo-1517245386807-bb43f82c33c4?w=800&h=600&fit=crop",
    "https://images.unsplash.com/photo-1551650975-87deedd944c3?w=800&h=600&fit=crop",
    "https://images.unsplash.com/photo-1558655146-364adaf1fcc9?w=800&h=600&fit=crop"
  ]

  datatype DisplayImage = ThumbnailImage | FallbackImage | DefaultImage(url: string)

  /**
   * The image a template is shown with: its thumbnail, else its fallback
   * image, else the stock image at `id mod 5`. Python's `%` by a positive
   * modulus is never negative, so the index is valid for every id, and two
   * ids in the same residue class get the same image.
   */
  function DisplayImageOf(t: Listing, id: int): (r: DisplayImage)
    ensures t.hasThumbnail ==> r == ThumbnailImage
    ensures !t.hasThumbnail && t.hasFallbackImage ==> r == FallbackImage
    ensures !t.hasThumbnail && !t.hasFallbackImage ==>
      r.DefaultImage? && r.url in DefaultImages && r.url == DefaultImages[id % |DefaultImages|]
  {
    if t.hasThumbnail then ThumbnailImage
    else if t.hasFallbackImage then FallbackImage
    else DefaultImage(DefaultImages[id % |DefaultImages|])
  }

  /** Ids that agree modulo the pool size are shown the same stock image. */
  lemma DisplayImagePeriodic(t: Listing, id: int)
    ensures DisplayImageOf(t, id + |DefaultImages|) == DisplayImageOf(t, id)
  {
    var n := |DefaultImages|;
    assert (id + n) % n == id % n;
  }
}
