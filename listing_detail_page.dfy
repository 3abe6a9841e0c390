/**
 * The listing detail page: its hardcoded listing table with a `default`
 * record, the four-way rent comparison with its explanation, the gallery
 * selection, and the one-way state of the contact button.
 *
 * Rents are exact reals; image URLs are replaced by short identifiers.
 */
module ListingDetailPage {

  import opened Comparison

  /** A record of the detail table (title, location, figures and image list). */
  datatype Listing = Listing(
    id: int,
    title: string,
    location: string,
    images: seq<string>,
    advertisedRent: real,
    size: real,
    rooms: int,
    wwsPoints: int,
    maxLegalRent: real)

  // ---------------------------------------------------------------------------
  // The listing table and its lookup
  // ---------------------------------------------------------------------------

  /** The table, keyed as a JavaScript object is: by the string form of the id. */
  const ListingsData: map<string, Listing> := map[
    "1" := Listing(1, "Charming Canal View Apartment", "Amsterdam Centrum",
                   ["listing-1/photo-1", "listing-1/photo-2", "listing-1/photo-3"],
                   1850.0, 75.0, 2, 140, 1050.75),
    "2" := Listing(2, "Modern Loft in De Pijp", "Amsterdam De Pijp",
                   ["listing-2/photo-1", "listing-2/photo-2", "listing-2/photo-3"],
                   2200.0, 90.0, 3, 165, 1250.50),
    "3" := Listing(3, "Spacious Family Home", "Utrecht Oost",
                   ["listing-3/photo-1", "listing-3/photo-2", "listing-3/photo-3"],
                   2400.0, 120.0, 4, 170, 1380.00),
    "4" := Listing(4, "Cozy Studio near Station", "Rotterdam Centraal",
                   ["listing-4/photo-1", "listing-4/photo-2", "listing-4/photo-3"],
                   1100.0, 45.0, 1, 125, 850.20),
    "default" := Listing(0, "Beautiful Apartment in Great Location", "Netherlands",
                   ["default/photo-1", "default/photo-2", "default/photo-3"],
                   1750.0, 80.0, 3, 130, 950.00)
  ]

  /** The route parameter looked up in the table, falling back to the `default` record. */
  function FetchListing(id: string): (l: Listing)
    ensures l in ListingsData.Values
    ensures id in ListingsData ==> l == ListingsData[id]
    ensures l.id == 0 <==> id !in ListingsData || id == "default"
  {
    if id in ListingsData then ListingsData[id] else ListingsData["default"]
  }

  /** Each of the ids 1 to 4 shows its own record; any other id shows record 0. */
  lemma FetchListingExamples()
    ensures FetchListing("1").id == 1 && FetchListing("2").id == 2
    ensures FetchListing("3").id == 3 && FetchListing("4").id == 4
    ensures FetchListing("5").id == 0 && FetchListing("").id == 0
    ensures FetchListing("5") == FetchListing("default")
  {
  }

  // ---------------------------------------------------------------------------
  // The rent comparison
  // ---------------------------------------------------------------------------

  const LiberalisationPointsThreshold: int := 136

  /**
   * The explanation text, as the values it interpolates: the points and the
   * threshold, the amount above or below the maximum, or the fixed sentence
   * for a rent exactly at the maximum.
   */
  datatype ComparisonText =
    | LikelyLiberalized(points: int, threshold: int)
    | AboveMax(difference: real)
    | BelowMax(difference: real)
    | ExactlyAtMax

  datatype RentComparison = RentComparison(cls: ComparisonClass, text: ComparisonText)

  function Abs(x: real): real
  {
    if x < 0.0 then -x else x
  }

  /** The four-way comparison of the advertised rent with the maximum legal rent. */
  function CompareRent(l: Listing): (r: RentComparison)
    ensures r.cls == Neutral <==> l.wwsPoints >= LiberalisationPointsThreshold
    ensures r.cls == Overpriced <==>
      l.wwsPoints < LiberalisationPointsThreshold && l.advertisedRent > l.maxLegalRent
    ensures r.cls == Fair <==>
      l.wwsPoints < LiberalisationPointsThreshold && l.advertisedRent <= l.maxLegalRent
    ensures r.text.LikelyLiberalized? <==> r.cls == Neutral
    ensures r.text.LikelyLiberalized? ==>
      r.text.points == l.wwsPoints && r.text.threshold == LiberalisationPointsThreshold
    ensures r.text.AboveMax? <==> r.cls == Overpriced
    ensures r.text.AboveMax? ==>
      r.text.difference > 0.0 && l.maxLegalRent + r.text.difference == l.advertisedRent
    ensures r.text.BelowMax? ==>
      r.cls == Fair && r.text.difference > 0.0 && l.advertisedRent + r.text.difference == l.maxLegalRent
    ensures r.text.ExactlyAtMax? <==> r.cls == Fair && l.advertisedRent == l.maxLegalRent
  {
    var rentDifference := l.advertisedRent - l.maxLegalRent;
    if l.wwsPoints >= LiberalisationPointsThreshold then
      RentComparison(Neutral, LikelyLiberalized(l.wwsPoints, LiberalisationPointsThreshold))
    else if l.advertisedRent > l.maxLegalRent then
      RentComparison(Overpriced, AboveMax(rentDifference))
    else if l.advertisedRent < l.maxLegalRent then
      RentComparison(Fair, BelowMax(Abs(rentDifference)))
    else
      RentComparison(Fair, ExactlyAtMax)
  }

  /** Raising the advertised rent never makes an overpriced listing fair. */
  lemma OverpricedStaysOverpriced(l: Listing, higherRent: real)
    requires CompareRent(l).cls == Overpriced && higherRent >= l.advertisedRent
    ensures CompareRent(l.(advertisedRent := higherRent)).cls == Overpriced
  {
  }

  /** Lowering the advertised rent never makes a fair listing overpriced. */
  lemma FairStaysFair(l: Listing, lowerRent: real)
    requires CompareRent(l).cls == Fair && lowerRent <= l.advertisedRent
    ensures CompareRent(l.(advertisedRent := lowerRent)).cls == Fair
  {
  }

  /** The rents do not matter at or above the threshold; 136 itself is in, 135 is out. */
  lemma ThresholdIsClosed(l: Listing)
    ensures CompareRent(l.(wwsPoints := 136)).cls == Neutral
    ensures CompareRent(l.(wwsPoints := 135)).cls != Neutral
  {
  }

  /** The table's own records: 1 to 3 are liberalized, 4 and the default are overpriced. */
  lemma TableComparisons()
    ensures CompareRent(FetchListing("1")).cls == Neutral
    ensures CompareRent(FetchListing("2")).cls == Neutral
    ensures CompareRent(FetchListing("3")).cls == Neutral
    ensures CompareRent(FetchListing("4")) == RentComparison(Overpriced, AboveMax(249.80))
    ensures CompareRent(FetchListing("default")) == RentComparison(Overpriced, AboveMax(800.00))
  {
  }

  // ---------------------------------------------------------------------------
  // The gallery
  // ---------------------------------------------------------------------------

  /** What the gallery shows: the placeholder, one full-width image, or a grid. */
  datatype Gallery = Placeholder | SingleImage(src: string) | Grid(srcs: seq<string>)

  const MaxGalleryImages: int := 5

  /** The gallery for a listing's images: the first five at most, in order, once there are two. */
  function RenderGallery(l: Listing): (g: Gallery)
    ensures g.Placeholder? <==> |l.images| == 0
    ensures g.SingleImage? <==> |l.images| == 1
    ensures g.SingleImage? ==> g.src == l.images[0]
    ensures g.Grid? ==> 2 <= |g.srcs| <= MaxGalleryImages && g.srcs <= l.images
    ensures g.Grid? ==> |g.srcs| == if |l.images| < MaxGalleryImages then |l.images| else MaxGalleryImages
  {
    if |l.images| == 0 then Placeholder
    else if |l.images| == 1 then SingleImage(l.images[0])
    else Grid(l.images[..if |l.images| < MaxGalleryImages then |l.images| else MaxGalleryImages])
  }

  /** The images the gallery shows, in the order it shows them. */
  function Shown(g: Gallery): seq<string>
  {
    match g
    case Placeholder => []
    case SingleImage(src) => [src]
    case Grid(srcs) => srcs
  }

  /** Every gallery shows a prefix of the images, and all of them when there are at most five. */
  lemma GalleryShowsPrefix(l: Listing)
    ensures Shown(RenderGallery(l)) <= l.images
    ensures |l.images| <= MaxGalleryImages ==> Shown(RenderGallery(l)) == l.images
    ensures |l.images| > MaxGalleryImages ==> |Shown(RenderGallery(l))| == MaxGalleryImages
  {
  }

  // ---------------------------------------------------------------------------
  // The contact button
  // ---------------------------------------------------------------------------

  const PrototypeMessage: string := "This is a prototype. Contact functionality is for demonstration."
  const ThankYouMessage: string := "Thank you! Your (mock) inquiry has been sent."

  /** The page's `contactMessage` and `contactButtonDisabled` state. */
  class ContactBox {
    var contactMessage: string
    var contactButtonDisabled: bool

    /** The message always tells which state the button is in. */
    ghost predicate Valid()
      reads this
    {
      contactMessage == (if contactButtonDisabled then ThankYouMessage else PrototypeMessage)
    }

    constructor ()
      ensures Valid()
      ensures contactMessage == PrototypeMessage && !contactButtonDisabled
    {
      contactMessage := PrototypeMessage;
      contactButtonDisabled := false;
    }

    /** The click handler: show the thank-you text and disable the button. */
    method HandleContactLister()
      modifies this
      ensures Valid()
      ensures contactMessage == ThankYouMessage && contactButtonDisabled
    {
      contactMessage := ThankYouMessage;
      contactButtonDisabled := true;
    }

    /** A click on the button: a disabled button does not call its handler. */
    method ClickContactButton()
      requires Valid()
      modifies this
      ensures Valid()
      ensures contactMessage == ThankYouMessage && contactButtonDisabled
      ensures old(contactButtonDisabled) ==> unchanged(this)
    {
      if !contactButtonDisabled {
        HandleContactLister();
      }
    }
  }

  /** A client of the page: once clicked, the button stays disabled on later clicks. */
  method ContactScenario()
  {
    var box := new ContactBox();
    assert !box.contactButtonDisabled;
    box.ClickContactButton();
    assert box.contactButtonDisabled && box.contactMessage == ThankYouMessage;
    box.ClickContactButton();
    assert box.contactButtonDisabled && box.contactMessage == ThankYouMessage;
  }
}
