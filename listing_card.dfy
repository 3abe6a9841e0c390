/**
 * The listing card component: a guard against a missing listing, then the
 * three-way rent comparison that labels the card's badge.
 */
module ListingCard {

  import opened Wrappers
  import opened Comparison
  import ListingDetailPage

  /** The props of a card: the record of the home page's listing list. */
  datatype CardListing = CardListing(
    id: int,
    title: string,
    location: string,
    image: string,
    advertisedRent: real,
    size: real,
    rooms: int,
    wwsPoints: int,
    maxLegalRent: real)

  const LiberalisationPointsThreshold: int := 136

  /** The badge of a card: its class and its fixed text. */
  datatype CardComparison = CardComparison(cls: ComparisonClass, text: string)

  /** The three-way comparison; a rent exactly at the maximum counts as fair. */
  function CompareRent(advertisedRent: real, maxLegalRent: real, wwsPoints: int): (r: CardComparison)
    ensures r.cls == Neutral <==> wwsPoints >= LiberalisationPointsThreshold
    ensures r.cls == Overpriced <==>
      wwsPoints < LiberalisationPointsThreshold && advertisedRent > maxLegalRent
    ensures r.cls == Fair <==>
      wwsPoints < LiberalisationPointsThreshold && advertisedRent <= maxLegalRent
    ensures r.text == BadgeText(r.cls)
  {
    if wwsPoints >= LiberalisationPointsThreshold then
      CardComparison(Neutral, "Likely liberalized")
    else if advertisedRent > maxLegalRent then
      CardComparison(Overpriced, "Overpriced")
    else
      CardComparison(Fair, "Fair Price")
  }

  /** The text each class is shown with. */
  function BadgeText(cls: ComparisonClass): string
  {
    match cls
    case Neutral => "Likely liberalized"
    case Overpriced => "Overpriced"
    case Fair => "Fair Price"
  }

  /** Different classes are never shown with the same text or the same colour. */
  lemma BadgeDistinguishesClasses(c: ComparisonClass, d: ComparisonClass)
    requires c != d
    ensures BadgeText(c) != BadgeText(d)
    ensures Badge(c) != Badge(d)
  {
  }

  /** What a card renders of the comparison: its badge text and colour. */
  datatype CardView = CardView(comparison: CardComparison, badge: BadgeStyle)

  /** The component: nothing for a missing listing, otherwise the badge of its comparison. */
  function Render(listing: Option<CardListing>): (v: Option<CardView>)
    ensures v.None? <==> listing.None?
    ensures listing.Some? ==>
      v.value.comparison ==
        CompareRent(listing.value.advertisedRent, listing.value.maxLegalRent, listing.value.wwsPoints)
    ensures v.Some? ==> v.value.badge == Badge(v.value.comparison.cls)
  {
    match listing
    case None => None
    case Some(l) =>
      var c := CompareRent(l.advertisedRent, l.maxLegalRent, l.wwsPoints);
      Some(CardView(c, Badge(c.cls)))
  }

  /** The card assigns every listing the class the detail page assigns it. */
  lemma AgreesWithDetailPage(l: ListingDetailPage.Listing)
    ensures CompareRent(l.advertisedRent, l.maxLegalRent, l.wwsPoints).cls ==
            ListingDetailPage.CompareRent(l).cls
  {
  }

  /** A card is fair exactly where the detail page says below or at the maximum. */
  lemma FairCardMeansBelowOrAtMax(l: ListingDetailPage.Listing)
    ensures CompareRent(l.advertisedRent, l.maxLegalRent, l.wwsPoints).cls == Fair <==>
            ListingDetailPage.CompareRent(l).text.BelowMax? || ListingDetailPage.CompareRent(l).text.ExactlyAtMax?
  {
  }
}
